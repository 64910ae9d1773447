/** White-space trimming and the string order used to break ties between ids. */
module Text {

  /** The characters that Unicode classifies as white space. */
  predicate IsSpace(c: char) {
    || '\U{0009}' <= c <= '\U{000D}' || c == ' ' || c == '\U{0085}' || c == '\U{00A0}' || c == '\U{1680}'
    || '\U{2000}' <= c <= '\U{200A}' || c == '\U{2028}' || c == '\U{2029}' || c == '\U{202F}'
    || c == '\U{205F}' || c == '\U{3000}'
  }

  function TrimLeft(s: string): string {
    if s != "" && IsSpace(s[0]) then TrimLeft(s[1..]) else s
  }

  function TrimRight(s: string): string {
    if s != "" && IsSpace(s[|s| - 1]) then TrimRight(s[..|s| - 1]) else s
  }

  function Trim(s: string): string { TrimRight(TrimLeft(s)) }

  /** Trimming takes nothing but white space off the two ends, and all of it. */
  lemma TrimIsMiddle(s: string) returns (left: string, right: string)
    ensures s == left + Trim(s) + right
    ensures (forall c :: c in left ==> IsSpace(c)) && forall c :: c in right ==> IsSpace(c)
    ensures Trim(s) != "" ==> !IsSpace(Trim(s)[0]) && !IsSpace(Trim(s)[|Trim(s)| - 1])
  {
    left := LeftPart(s);
    right := RightPart(TrimLeft(s));
    var t := TrimLeft(s);
    if Trim(s) != "" { assert t[0] == (Trim(s) + right)[0] == Trim(s)[0]; }
  }

  lemma {:induction false} LeftPart(s: string) returns (left: string)
    ensures s == left + TrimLeft(s) && forall c :: c in left ==> IsSpace(c)
    ensures TrimLeft(s) != "" ==> !IsSpace(TrimLeft(s)[0])
  {
    left := "";
    if s != "" && IsSpace(s[0]) {
      var rest := LeftPart(s[1..]);
      left := [s[0]] + rest;
      assert s == [s[0]] + s[1..];
    }
  }

  lemma {:induction false} RightPart(s: string) returns (right: string)
    ensures s == TrimRight(s) + right && forall c :: c in right ==> IsSpace(c)
    ensures TrimRight(s) != "" ==> !IsSpace(TrimRight(s)[|TrimRight(s)| - 1])
  {
    right := "";
    if s != "" && IsSpace(s[|s| - 1]) {
      var rest := RightPart(s[..|s| - 1]);
      right := rest + [s[|s| - 1]];
      assert s == s[..|s| - 1] + [s[|s| - 1]];
    }
  }

  /** The string order: the first differing character decides, and a proper prefix comes first. */
  predicate Less(s: string, t: string) {
    t != "" && (s == "" || s[0] < t[0] || (s[0] == t[0] && Less(s[1..], t[1..])))
  }

  lemma {:induction false} LessTotal(s: string, t: string)
    ensures s == t || Less(s, t) || Less(t, s)
  {
    if s != "" && t != "" && s[0] == t[0] {
      LessTotal(s[1..], t[1..]);
      assert s == [s[0]] + s[1..] && t == [t[0]] + t[1..];
    }
  }

  lemma {:induction false} LessTransitive(s: string, t: string, u: string)
    requires Less(s, t) && Less(t, u)
    ensures Less(s, u)
  {
    if s != "" && s[0] == t[0] && t[0] == u[0] {
      LessTransitive(s[1..], t[1..], u[1..]);
    }
  }

  lemma {:induction false} LessAsymmetric(s: string, t: string)
    requires Less(s, t)
    ensures !Less(t, s)
  {
    if s != "" && s[0] == t[0] {
      LessAsymmetric(s[1..], t[1..]);
    }
  }

  /** One string is less than another exactly if it is a proper prefix or has the smaller character at the first
      difference. */
  lemma {:induction false} LessIff(s: string, t: string)
    ensures Less(s, t) <==> (s < t || exists i :: 0 <= i < |s| && i < |t| && s[..i] == t[..i] && s[i] < t[i])
  {
    if s != "" && t != "" {
      if s[0] == t[0] {
        var u, v := s[1..], t[1..];
        LessIff(u, v);
        assert s == [s[0]] + u && t == [t[0]] + v;
        assert s < t <==> u < v;
        if i :| 0 <= i < |s| && i < |t| && s[..i] == t[..i] && s[i] < t[i] {
          assert i > 0 && u[..i - 1] == s[..i][1..] && v[..i - 1] == t[..i][1..] && u[i - 1] < v[i - 1];
        }
        if i :| 0 <= i < |u| && i < |v| && u[..i] == v[..i] && u[i] < v[i] {
          assert s[..i + 1] == [s[0]] + u[..i] && t[..i + 1] == [t[0]] + v[..i] && s[i + 1] < t[i + 1];
        }
      } else {
        assert s[..0] == t[..0] == "";
        assert forall i :: 0 < i <= |s| && i <= |t| ==> s[..i][0] == s[0] && t[..i][0] == t[0];
      }
    }
  }
}
