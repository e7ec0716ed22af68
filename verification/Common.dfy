/** Shared datatypes and the few string operations the sources use. */
module Common {

  datatype Option<+T> = None | Some(value: T)

  /** The errors the services raise; Internal is an unhandled exception. */
  datatype Error = BadRequest | Conflict | Unauthorized | Internal

  datatype Result<+T> = Ok(value: T) | Err(error: Error)

  function LowerChar(c: char): char {
    if 'A' <= c <= 'Z' then c - 'A' + 'a' else c
  }

  /** ASCII lower case. */
  function Lower(s: string): (r: string)
    ensures |r| == |s| && forall i :: 0 <= i < |s| ==> r[i] == LowerChar(s[i])
  {
    seq(|s|, i requires 0 <= i < |s| => LowerChar(s[i]))
  }

  /** No capital is left, and only capitals have changed. */
  lemma LowerIs(s: string, i: nat)
    requires i < |s|
    ensures !('A' <= Lower(s)[i] <= 'Z')
    ensures if 'A' <= s[i] <= 'Z' then Lower(s)[i] as int == s[i] as int + 32 else Lower(s)[i] == s[i]
  {
  }

  lemma LowerTwice(s: string)
    ensures Lower(Lower(s)) == Lower(s)
  {
  }

  predicate IsBlank(c: char) { c == ' ' || '\t' <= c <= '\r' }

  /** Without leading and trailing blanks. */
  function Strip(s: string): (r: string) {
    if s != "" && IsBlank(s[0]) then Strip(s[1..])
    else if s != "" && IsBlank(s[|s| - 1]) then Strip(s[..|s| - 1])
    else s
  }

  /** Does `needle` occur in `s`? */
  predicate Contains(s: string, needle: string) {
    needle <= s || (s != "" && Contains(s[1..], needle))
  }

  lemma {:induction false} ContainsIs(s: string, needle: string)
    ensures Contains(s, needle) <==> exists a, b :: s == a + needle + b
  {
    if needle <= s {
      assert s == "" + needle + s[|needle|..];
    } else if s != "" {
      ContainsIs(s[1..], needle);
      if Contains(s[1..], needle) {
        var a, b :| s[1..] == a + needle + b;
        assert s == ([s[0]] + a) + needle + b;
      }
      if a, b :| s == a + needle + b {
        assert a == "" ==> needle <= s;
        assert s[1..] == a[1..] + needle + b;
      }
    }
  }

  predicate AllBlank(s: string) { forall i :: 0 <= i < |s| ==> IsBlank(s[i]) }

  /** r is s but for blanks around it. */
  ghost predicate BlanksOff(s: string, r: string) {
    exists a, b :: s == a + r + b && AllBlank(a) && AllBlank(b)
  }

  lemma BlankIs(c: char)
    ensures IsBlank(c) <==> c in [' ', '\t', '\n', '\U{0B}', '\U{0C}', '\r']
  {
  }

  lemma BlankBefore(s: string, r: string)
    requires s != "" && IsBlank(s[0]) && BlanksOff(s[1..], r)
    ensures BlanksOff(s, r)
  {
    var a, b :| s[1..] == a + r + b && AllBlank(a) && AllBlank(b);
    assert s == ([s[0]] + a) + r + b && AllBlank([s[0]] + a);
  }

  lemma BlankAfter(s: string, r: string)
    requires s != "" && IsBlank(s[|s| - 1]) && BlanksOff(s[..|s| - 1], r)
    ensures BlanksOff(s, r)
  {
    var a, b :| s[..|s| - 1] == a + r + b && AllBlank(a) && AllBlank(b);
    assert s == a + r + (b + [s[|s| - 1]]) && AllBlank(b + [s[|s| - 1]]);
  }

  /** Only blanks are taken off, and none is left at either end. */
  lemma {:induction false} StripIs(s: string)
    ensures BlanksOff(s, Strip(s))
    ensures Strip(s) != "" ==> !IsBlank(Strip(s)[0]) && !IsBlank(Strip(s)[|Strip(s)| - 1])
    decreases |s|
  {
    hide IsBlank, BlanksOff, AllBlank;
    if s != "" && IsBlank(s[0]) {
      StripIs(s[1..]);
      BlankBefore(s, Strip(s));
    } else if s != "" && IsBlank(s[|s| - 1]) {
      StripIs(s[..|s| - 1]);
      BlankAfter(s, Strip(s));
    } else {
      NothingOff(s);
    }
  }

  lemma NothingOff(s: string)
    ensures BlanksOff(s, s)
  {
    assert s == "" + s + "" && AllBlank("");
  }

  /** A missing or empty optional text, which the handlers treat alike. */
  predicate Blank(s: Option<string>) {
    s.None? || s.value == ""
  }
}
