/** The two `String` extensions the generator uses to turn JSON keys into
    Swift identifiers and type names, restricted to ASCII case mapping. */
module StringExtensions {

  predicate IsUpper(c: char) { 'A' <= c <= 'Z' }
  predicate IsLower(c: char) { 'a' <= c <= 'z' }

  function Lower(c: char): char { if IsUpper(c) then (c as int + 32) as char else c }
  function Upper(c: char): char { if IsLower(c) then (c as int - 32) as char else c }

  /** `String.lowercased()` on ASCII text. */
  function Lowercased(s: string): string {
    seq(|s|, i requires 0 <= i < |s| => Lower(s[i]))
  }

  predicate HasUpper(s: string) {
    exists i :: 0 <= i < |s| && IsUpper(s[i])
  }

  /** Foundation's word delimiters for `capitalized`: spaces, tabs and line terminators. */
  predicate IsWordDelimiter(c: char) { c == ' ' || c == '\t' || c == '\n' || c == '\r' }

  /** `String.capitalized`: the first character of every word upper-cased,
      every other character lower-cased. */
  function Capitalized(s: string): string {
    seq(|s|, i requires 0 <= i < |s| =>
      if i == 0 || IsWordDelimiter(s[i - 1]) then Upper(s[i]) else Lower(s[i]))
  }

  /** `String.capitalizedFirstLetter()`: `prefix(1).uppercased() + dropFirst()`. */
  function CapitalizedFirstLetter(s: string): (r: string)
    ensures |r| == |s|
    ensures forall i :: 1 <= i < |s| ==> r[i] == s[i]
    ensures r != [] ==> !IsLower(r[0]) && Lower(r[0]) == Lower(s[0])
  {
    if s == [] then [] else [Upper(s[0])] + s[1..]
  }

  /** `parts.joined(separator: [sep])`. */
  function Joined(parts: seq<string>, sep: char): string
    requires |parts| >= 1
  {
    if |parts| == 1 then parts[0] else parts[0] + [sep] + Joined(parts[1..], sep)
  }

  /** `parts.joined()`. */
  function Concat(parts: seq<string>): string {
    if parts == [] then "" else parts[0] + Concat(parts[1..])
  }

  /** `components(separatedBy: "_")`: always at least one piece, none holding
      an underscore, and joining them back with `_` gives the input. */
  function Components(s: string): (parts: seq<string>)
    ensures |parts| >= 1
    ensures forall i :: 0 <= i < |parts| ==> '_' !in parts[i]
    ensures Joined(parts, '_') == s
  {
    if s == [] then [""]
    else
      var rest := Components(s[1..]);
      if s[0] == '_' then
        assert s == "_" + s[1..];
        [""] + rest
      else
        var parts := [[s[0]] + rest[0]] + rest[1..];
        assert parts[1..] == rest[1..];
        assert s == [s[0]] + s[1..];
        parts
  }

  /** `String.camelCased()`: the first `_`-separated piece lower-cased, every
      later piece capitalized, all joined without separator. */
  function CamelCased(key: string): string {
    var parts := Components(key);
    Lowercased(parts[0]) + Concat(CapitalizedEach(parts[1..]))
  }

  function CapitalizedEach(parts: seq<string>): seq<string> {
    seq(|parts|, i requires 0 <= i < |parts| => Capitalized(parts[i]))
  }

  /** The input with every `_` removed. */
  function WithoutUnderscores(s: string): string {
    if s == [] then "" else (if s[0] == '_' then "" else [s[0]]) + WithoutUnderscores(s[1..])
  }

  // ---------------------------------------------------------------------
  // Properties of camelCased and capitalizedFirstLetter

  /** A key with no underscore is a single component. */
  lemma {:induction false} ComponentsOfPlain(s: string)
    requires '_' !in s
    ensures Components(s) == [s]
  {
    if s != [] {
      ComponentsOfPlain(s[1..]);
      assert s == [s[0]] + s[1..];
    }
  }

  /** The first underscore ends the first component. */
  lemma {:induction false} ComponentsSplit(a: string, b: string)
    requires '_' !in a
    ensures Components(a + "_" + b) == [a] + Components(b)
  {
    if a == [] {
      assert a + "_" + b == "_" + b;
      assert ("_" + b)[1..] == b;
    } else {
      var s := a + "_" + b;
      ComponentsSplit(a[1..], b);
      assert s[0] == a[0] && s[1..] == a[1..] + "_" + b;
      assert [a[0]] + a[1..] == a;
    }
  }

  /** A key with no underscore comes out as its lower-cased self. */
  lemma {:induction false} CamelCasedOfPlain(key: string)
    requires '_' !in key
    ensures CamelCased(key) == Lowercased(key)
  {
    ComponentsOfPlain(key);
    assert Components(key)[1..] == [];
    assert CapitalizedEach([]) == [];
  }

  /** camelCased never leaves an underscore in its output. */
  lemma {:induction false} CamelCasedHasNoUnderscore(key: string)
    ensures '_' !in CamelCased(key)
  {
    var parts := Components(key);
    var each := CapitalizedEach(parts[1..]);
    NoUnderscoreLowercased(parts[0]);
    forall i | 0 <= i < |each| ensures '_' !in each[i] {
      NoUnderscoreCapitalized(parts[i + 1]);
    }
    ConcatAvoids(each, '_');
  }

  /** Ignoring letter case, camelCased only removes the underscores. */
  lemma {:induction false} CamelCasedKeepsLetters(key: string)
    ensures Lowercased(CamelCased(key)) == Lowercased(WithoutUnderscores(key))
  {
    var parts := Components(key);
    var pieces := [Lowercased(parts[0])] + CapitalizedEach(parts[1..]);
    assert pieces[1..] == CapitalizedEach(parts[1..]);
    assert CamelCased(key) == Concat(pieces);
    forall i | 0 <= i < |parts| ensures Lowercased(pieces[i]) == Lowercased(parts[i]) {
      if i == 0 { LowercasedIdempotent(parts[0]); } else { LowercasedCapitalized(parts[i]); }
    }
    LowercasedConcat(pieces, parts);
    WithoutUnderscoresJoined(parts);
  }

  /** A key needs a CodingKeys entry exactly when it has an underscore or an
      upper-case letter. */
  lemma {:induction false} CamelCasedRenames(key: string)
    ensures CamelCased(key) != key <==> '_' in key || HasUpper(key)
  {
    CamelCasedHasNoUnderscore(key);
    if '_' !in key {
      CamelCasedOfPlain(key);
      LowercasedFixed(key);
    }
  }

  /** Capitalizing the first letter twice is the same as once. */
  lemma {:induction false} CapitalizedFirstLetterIdempotent(s: string)
    ensures CapitalizedFirstLetter(CapitalizedFirstLetter(s)) == CapitalizedFirstLetter(s)
  {
    if s != [] {
      var r := CapitalizedFirstLetter(s);
      assert r == [Upper(s[0])] + s[1..];
      assert r[1..] == s[1..];
    }
  }

  /** Where piece `m` starts in `Joined(parts, sep)`: after every earlier
      piece and its separator. */
  function Offset(parts: seq<string>, m: nat): nat
    requires m <= |parts|
  {
    if m == 0 then 0 else |parts[0]| + 1 + Offset(parts[1..], m - 1)
  }

  /** Joining keeps every piece whole, at its offset. */
  lemma {:induction false} JoinedKeepsPieces(parts: seq<string>, sep: char, m: nat)
    requires m < |parts|
    ensures Offset(parts, m) + |parts[m]| <= |Joined(parts, sep)|
    ensures Joined(parts, sep)[Offset(parts, m)..Offset(parts, m) + |parts[m]|] == parts[m]
  {
    var whole := Joined(parts, sep);
    if m == 0 {
      if |parts| > 1 {
        assert whole == parts[0] + ([sep] + Joined(parts[1..], sep));
      }
    } else {
      var head := parts[0] + [sep];
      var tail := Joined(parts[1..], sep);
      JoinedKeepsPieces(parts[1..], sep, m - 1);
      assert whole == head + tail;
      var k := Offset(parts[1..], m - 1);
      assert whole[|head| + k..|head| + k + |parts[m]|] == tail[k..k + |parts[m]|];
    }
  }

  // ---------------------------------------------------------------------
  // Helpers

  lemma {:induction false} LowercasedIdempotent(s: string)
    ensures Lowercased(Lowercased(s)) == Lowercased(s)
  {}

  lemma {:induction false} LowercasedCapitalized(s: string)
    ensures Lowercased(Capitalized(s)) == Lowercased(s)
  {}

  lemma {:induction false} LowercasedFixed(s: string)
    ensures Lowercased(s) == s <==> !HasUpper(s)
  {
    if Lowercased(s) == s {
      forall i | 0 <= i < |s| ensures !IsUpper(s[i]) {
        assert Lowercased(s)[i] == Lower(s[i]);
      }
    }
  }

  lemma {:induction false} LowercasedAppend(a: string, b: string)
    ensures Lowercased(a + b) == Lowercased(a) + Lowercased(b)
  {}

  lemma {:induction false} NoUnderscoreLowercased(s: string)
    requires '_' !in s
    ensures '_' !in Lowercased(s)
  {
    forall i | 0 <= i < |s| ensures Lowercased(s)[i] != '_' {
      assert s[i] != '_';
    }
  }

  lemma {:induction false} NoUnderscoreCapitalized(s: string)
    requires '_' !in s
    ensures '_' !in Capitalized(s)
  {
    forall i | 0 <= i < |s| ensures Capitalized(s)[i] != '_' {
      assert s[i] != '_';
    }
  }

  lemma {:induction false} ConcatAvoids(parts: seq<string>, c: char)
    requires forall i :: 0 <= i < |parts| ==> c !in parts[i]
    ensures c !in Concat(parts)
  {
    if parts != [] {
      ConcatAvoids(parts[1..], c);
    }
  }

  lemma {:induction false} LowercasedConcat(ps: seq<string>, qs: seq<string>)
    requires |ps| == |qs|
    requires forall i :: 0 <= i < |ps| ==> Lowercased(ps[i]) == Lowercased(qs[i])
    ensures Lowercased(Concat(ps)) == Lowercased(Concat(qs))
  {
    if ps != [] {
      LowercasedConcat(ps[1..], qs[1..]);
      LowercasedAppend(ps[0], Concat(ps[1..]));
      LowercasedAppend(qs[0], Concat(qs[1..]));
    }
  }

  lemma {:induction false} WithoutUnderscoresAppend(a: string, b: string)
    ensures WithoutUnderscores(a + b) == WithoutUnderscores(a) + WithoutUnderscores(b)
  {
    if a == [] {
      assert a + b == b;
    } else {
      assert (a + b)[1..] == a[1..] + b;
      WithoutUnderscoresAppend(a[1..], b);
    }
  }

  lemma {:induction false} WithoutUnderscoresOfPlain(s: string)
    requires '_' !in s
    ensures WithoutUnderscores(s) == s
  {
    if s != [] {
      WithoutUnderscoresOfPlain(s[1..]);
      assert s == [s[0]] + s[1..];
    }
  }

  lemma {:induction false} WithoutUnderscoresJoined(parts: seq<string>)
    requires |parts| >= 1
    requires forall i :: 0 <= i < |parts| ==> '_' !in parts[i]
    ensures WithoutUnderscores(Joined(parts, '_')) == Concat(parts)
  {
    WithoutUnderscoresOfPlain(parts[0]);
    if |parts| == 1 {
      assert Concat(parts[1..]) == "";
    } else {
      WithoutUnderscoresJoined(parts[1..]);
      assert Joined(parts, '_') == parts[0] + "_" + Joined(parts[1..], '_');
      WithoutUnderscoresAppend(parts[0] + "_", Joined(parts[1..], '_'));
      WithoutUnderscoresAppend(parts[0], "_");
      assert WithoutUnderscores("_") == "";
    }
  }
}
