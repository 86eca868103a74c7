/** The parts of java.lang.String and java.util.stream.Collectors.joining that the plugin relies on. */
module JavaString {

  /** String.trim() strips every leading and trailing char whose code is at most U+0020. */
  predicate IsTrimmable(c: char) {
    c <= ' '
  }

  /** Neither end of the string can be trimmed. */
  predicate IsTrimmed(s: string) {
    s == [] || (!IsTrimmable(s[0]) && !IsTrimmable(s[|s| - 1]))
  }

  /** Drops the leading trimmable chars. */
  function TrimLeading(s: string): (r: string)
    ensures |r| <= |s|
  {
    if |s| > 0 && IsTrimmable(s[0]) then TrimLeading(s[1..]) else s
  }

  /** Drops the trailing trimmable chars. */
  function TrimTrailing(s: string): (r: string)
    ensures |r| <= |s|
  {
    if |s| > 0 && IsTrimmable(s[|s| - 1]) then TrimTrailing(s[..|s| - 1]) else s
  }

  /** What is left after dropping the leading trimmable chars is the longest suffix that starts with a kept char. */
  lemma {:induction false} TrimLeadingShape(s: string)
    ensures var r := TrimLeading(s);
            |r| <= |s| && r == s[|s| - |r|..]
            && (forall k :: 0 <= k < |s| - |r| ==> IsTrimmable(s[k]))
            && (r == [] || !IsTrimmable(r[0]))
  {
    if |s| > 0 && IsTrimmable(s[0]) {
      var t := s[1..];
      TrimLeadingShape(t);
      var r := TrimLeading(t);
      assert TrimLeading(s) == r;
      assert t[|t| - |r|..] == s[|s| - |r|..];
      assert forall k :: 0 < k < |s| - |r| ==> s[k] == t[k - 1];
    } else {
      assert s[|s| - |s|..] == s;
    }
  }

  /** What is left after dropping the trailing trimmable chars is the longest prefix that ends with a kept char. */
  lemma {:induction false} TrimTrailingShape(s: string)
    ensures var r := TrimTrailing(s);
            |r| <= |s| && r == s[..|r|]
            && (forall k :: |r| <= k < |s| ==> IsTrimmable(s[k]))
            && (r == [] || !IsTrimmable(r[|r| - 1]))
  {
    if |s| > 0 && IsTrimmable(s[|s| - 1]) {
      TrimTrailingShape(s[..|s| - 1]);
      var r := TrimTrailing(s);
      assert r == TrimTrailing(s[..|s| - 1]);
      assert s[..|s| - 1][..|r|] == s[..|r|];
      forall k | |r| <= k < |s| ensures IsTrimmable(s[k]) {
        if k < |s| - 1 {
          assert s[k] == s[..|s| - 1][k];
        }
      }
    }
  }

  /** String.trim(). */
  function Trim(s: string): (r: string)
    ensures IsTrimmed(r) && |r| <= |s|
  {
    TrimLeadingShape(s);
    TrimTrailingShape(TrimLeading(s));
    var left := TrimLeading(s);
    var r := TrimTrailing(left);
    assert r != [] ==> r[0] == left[0];
    r
  }

  /** trim() removes exactly a run of trimmable chars at each end: the result is the infix of s that
      starts after the leading run and is followed only by trimmable chars. */
  lemma TrimIsInfix(s: string)
    ensures var r := Trim(s); var i := |s| - |TrimLeading(s)|;
            i + |r| <= |s| && r == s[i..i + |r|]
            && (forall k :: 0 <= k < i ==> IsTrimmable(s[k]))
            && (forall k :: i + |r| <= k < |s| ==> IsTrimmable(s[k]))
  {
    TrimLeadingShape(s);
    var left := TrimLeading(s);
    TrimTrailingShape(left);
    var r := TrimTrailing(left);
    var i := |s| - |left|;
    assert left == s[i..];
    assert r == left[..|r|];
    assert r == s[i..i + |r|];
    forall k | i + |r| <= k < |s| ensures IsTrimmable(s[k]) {
      assert IsTrimmable(left[k - i]);
    }
  }

  /** `s.trim().isEmpty()`, which is also how StringUtil.isEmptyOrSpaces treats a non-null string. */
  predicate IsBlank(s: string) {
    Trim(s) == ""
  }

  /** A string is blank exactly when every char of it is trimmable. */
  lemma BlankIffAllTrimmable(s: string)
    ensures IsBlank(s) <==> forall k :: 0 <= k < |s| ==> IsTrimmable(s[k])
  {
    TrimIsInfix(s);
    if !IsBlank(s) {
      var i := |s| - |TrimLeading(s)|;
      assert s[i] == Trim(s)[0];
    }
  }

  /** Trimming an already trimmed string changes nothing. */
  lemma TrimTrimmed(s: string)
    requires IsTrimmed(s)
    ensures Trim(s) == s
  {
    if s != [] {
      assert TrimLeading(s) == s;
      assert TrimTrailing(s) == s;
    }
  }

  /** Trimming twice is trimming once. */
  lemma TrimIdempotent(s: string)
    ensures Trim(Trim(s)) == Trim(s)
  {
    TrimTrimmed(Trim(s));
  }

  /** Collectors.joining(sep): the parts in order, with sep between neighbours. */
  function Join(parts: seq<string>, sep: string): (r: string)
    ensures parts == [] ==> r == ""
    ensures parts != [] ==> |parts[0]| <= |r| && r[..|parts[0]|] == parts[0]
  {
    if parts == [] then ""
    else if |parts| == 1 then parts[0]
    else parts[0] + sep + Join(parts[1..], sep)
  }

  /** Appending a part: the new part follows the old join after one separator, or stands alone. */
  lemma {:induction false} JoinSnoc(parts: seq<string>, p: string, sep: string)
    ensures Join(parts + [p], sep) == if parts == [] then p else Join(parts, sep) + sep + p
  {
    var s := parts + [p];
    if parts == [] {
      assert s == [p];
    } else {
      assert s[0] == parts[0];
      assert s[1..] == parts[1..] + [p];
      JoinSnoc(parts[1..], p, sep);
      if |parts| == 1 {
        assert parts[1..] == [];
      } else {
        assert Join(s, sep) == parts[0] + sep + (Join(parts[1..], sep) + sep + p);
        assert parts[0] + sep + (Join(parts[1..], sep) + sep + p)
               == (parts[0] + sep + Join(parts[1..], sep)) + sep + p;
      }
    }
  }

  /** Joining non-empty trimmed parts keeps the first part's first char and the last part's last char,
      so the joined string is empty only for no parts and is itself trimmed. */
  lemma {:induction false} JoinOfTrimmedParts(parts: seq<string>, sep: string)
    requires forall k :: 0 <= k < |parts| ==> parts[k] != "" && IsTrimmed(parts[k])
    ensures Join(parts, sep) == "" <==> parts == []
    ensures IsTrimmed(Join(parts, sep))
    ensures parts != [] ==> Join(parts, sep)[0] == parts[0][0]
    ensures parts != [] ==> var j := Join(parts, sep); var last := parts[|parts| - 1];
                            j[|j| - 1] == last[|last| - 1]
  {
    if |parts| > 1 {
      JoinOfTrimmedParts(parts[1..], sep);
    }
  }
}
