/** Patterns as pikzie's `assert_match`, `assert_search` and their
    negations receive them: either a plain string, or a compiled pattern
    that keeps its flags. Only literal patterns are modelled: the pattern
    text matches itself and nothing else. */
module Patterns {
  import opened Options
  import opened PyRepr

  /** The compile flags the model knows: `re.IGNORECASE` and `re.LOCALE`. */
  datatype Flags = Flags(ignoreCase: bool, locale: bool)

  const NoFlags: Flags := Flags(false, false)

  datatype Pattern =
    | Literal(text: string)
    | Compiled(source: string, flags: Flags)

  function Source(p: Pattern): string {
    match p
    case Literal(text) => text
    case Compiled(source, _) => source
  }

  /** A plain string compiles without flags. */
  function FlagsOf(p: Pattern): Flags {
    match p
    case Literal(_) => NoFlags
    case Compiled(_, flags) => flags
  }

  /** ASCII case folding, which is what `re.IGNORECASE` applies to a
      byte string under the C locale. */
  function FoldChar(c: char): char {
    if 'A' <= c <= 'Z' then (c as int - 'A' as int + 'a' as int) as char else c
  }

  function Fold(s: string): (r: string)
    ensures |r| == |s|
    ensures forall i :: 0 <= i < |s| ==> r[i] == FoldChar(s[i])
  {
    seq(|s|, i requires 0 <= i < |s| => FoldChar(s[i]))
  }

  predicate StartsWith(t: string, p: string) {
    |p| <= |t| && t[..|p|] == p
  }

  /** `p` occurs somewhere in `t`, tried from the left as `re.search` does. */
  predicate Occurs(p: string, t: string)
    decreases |t|
  {
    StartsWith(t, p) || (|t| > 0 && Occurs(p, t[1..]))
  }

  /** `re.match(p, t)` does not return None: the pattern matches at the
      start of the target. */
  predicate IsMatch(p: Pattern, t: string)
    ensures IsMatch(p, t) ==> IsFound(p, t)
  {
    if FlagsOf(p).ignoreCase then StartsWith(Fold(t), Fold(Source(p)))
    else StartsWith(t, Source(p))
  }

  /** `re.search(p, t)` does not return None: the pattern matches
      somewhere in the target. */
  predicate IsFound(p: Pattern, t: string) {
    if FlagsOf(p).ignoreCase then Occurs(Fold(Source(p)), Fold(t))
    else Occurs(Source(p), t)
  }

  /** `p` stands in `t` at position `i`. */
  predicate OccursAtIndex(p: string, t: string, i: int) {
    0 <= i && i + |p| <= |t| && t[i..i + |p|] == p
  }

  /** The search is an unanchored match: it succeeds exactly when the
      pattern text stands at some position of the target. */
  lemma {:induction false} OccursAt(p: string, t: string)
    ensures Occurs(p, t) <==> exists i :: OccursAtIndex(p, t, i)
    decreases |t|
  {
    if StartsWith(t, p) {
      assert OccursAtIndex(p, t, 0);
    } else if |t| == 0 {
    } else {
      OccursAt(p, t[1..]);
      if Occurs(p, t[1..]) {
        var i :| OccursAtIndex(p, t[1..], i);
        assert t[i + 1..i + 1 + |p|] == t[1..][i..i + |p|];
        assert OccursAtIndex(p, t, i + 1);
      }
      if exists i :: OccursAtIndex(p, t, i) {
        var i :| OccursAtIndex(p, t, i);
        assert i != 0;
        assert t[1..][i - 1..i - 1 + |p|] == t[i..i + |p|];
        assert OccursAtIndex(p, t[1..], i - 1);
      }
    }
  }

  lemma FoldStartsWith(t: string, p: string)
    requires StartsWith(t, p)
    ensures StartsWith(Fold(t), Fold(p))
  {
    assert Fold(t)[..|p|] == Fold(p);
  }

  lemma {:induction false} FoldOccurs(p: string, t: string)
    requires Occurs(p, t)
    ensures Occurs(Fold(p), Fold(t))
    decreases |t|
  {
    if StartsWith(t, p) {
      FoldStartsWith(t, p);
    } else {
      FoldOccurs(p, t[1..]);
      assert Fold(t)[1..] == Fold(t[1..]);
    }
  }

  /** `c` and `d` are the same character, or the same ASCII letter in
      the two cases. */
  predicate SameIgnoringCase(c: char, d: char) {
    || c == d
    || ('A' <= c <= 'Z' && d as int == c as int + 32)
    || ('a' <= c <= 'z' && c as int == d as int + 32)
  }

  /** `p` stands in `t` at position `k`, letter case aside. */
  predicate StandsIgnoringCase(p: string, t: string, k: int) {
    && 0 <= k && k + |p| <= |t|
    && forall i :: 0 <= i < |p| ==> SameIgnoringCase(t[k + i], p[i])
  }

  /** Folding identifies exactly the characters that differ at most in case. */
  lemma FoldCharSame(c: char, d: char)
    ensures FoldChar(c) == FoldChar(d) <==> SameIgnoringCase(c, d)
  {
  }

  lemma FoldStandsAt(p: string, t: string, k: int)
    requires 0 <= k && k + |p| <= |t|
    ensures Fold(t)[k..k + |p|] == Fold(p) <==> StandsIgnoringCase(p, t, k)
  {
    forall i | 0 <= i < |p|
      ensures Fold(t)[k..k + |p|][i] == Fold(p)[i] <==> SameIgnoringCase(t[k + i], p[i])
    {
      FoldCharSame(t[k + i], p[i]);
    }
    if StandsIgnoringCase(p, t, k) {
      assert Fold(t)[k..k + |p|] == Fold(p);
    }
  }

  /** With `re.IGNORECASE`, `re.match` succeeds exactly when the target
      begins with the pattern text, letter case aside. */
  lemma IgnoreCaseMatch(source: string, locale: bool, t: string)
    ensures IsMatch(Compiled(source, Flags(true, locale)), t) <==> StandsIgnoringCase(source, t, 0)
  {
    if |source| <= |t| {
      FoldStandsAt(source, t, 0);
      assert Fold(t)[..|source|] == Fold(t)[0..0 + |source|];
    }
  }

  /** With `re.IGNORECASE`, `re.search` succeeds exactly when the pattern
      text stands somewhere in the target, letter case aside. */
  lemma IgnoreCaseSearch(source: string, locale: bool, t: string)
    ensures IsFound(Compiled(source, Flags(true, locale)), t) <==> exists k :: StandsIgnoringCase(source, t, k)
  {
    OccursAt(Fold(source), Fold(t));
    if exists k :: OccursAtIndex(Fold(source), Fold(t), k) {
      var k :| OccursAtIndex(Fold(source), Fold(t), k);
      FoldStandsAt(source, t, k);
    }
    if exists k :: StandsIgnoringCase(source, t, k) {
      var k :| StandsIgnoringCase(source, t, k);
      FoldStandsAt(source, t, k);
      assert OccursAtIndex(Fold(source), Fold(t), k);
    }
  }

  /** Without `re.IGNORECASE`, `re.search` succeeds exactly when the
      pattern text stands, character for character, somewhere in the target. */
  lemma CaseSensitiveSearch(p: Pattern, t: string)
    requires !FlagsOf(p).ignoreCase
    ensures IsFound(p, t) <==> exists k :: OccursAtIndex(Source(p), t, k)
  {
    OccursAt(Source(p), t);
  }

  /** Setting `re.IGNORECASE` never turns a match or a search that
      succeeds into one that fails. */
  lemma IgnoreCaseWidens(source: string, locale: bool, t: string)
    ensures IsMatch(Compiled(source, Flags(false, locale)), t) ==> IsMatch(Compiled(source, Flags(true, locale)), t)
    ensures IsFound(Compiled(source, Flags(false, locale)), t) ==> IsFound(Compiled(source, Flags(true, locale)), t)
  {
    if StartsWith(t, source) {
      FoldStartsWith(t, source);
    }
    if Occurs(source, t) {
      FoldOccurs(source, t);
    }
  }

  /** The flag letters of the `/pattern/flags` rendering, in the order `il`. */
  function FlagLetters(f: Flags): string {
    if f.ignoreCase && f.locale then "il"
    else if f.ignoreCase then "i"
    else if f.locale then "l"
    else ""
  }

  function ParseFlagLetters(s: string): Option<Flags> {
    if s == "" then Some(Flags(false, false))
    else if s == "i" then Some(Flags(true, false))
    else if s == "l" then Some(Flags(false, true))
    else if s == "il" then Some(Flags(true, true))
    else None
  }
  /** The flag letters name the flags unambiguously. */
  lemma FlagLettersParse(f: Flags)
    ensures ParseFlagLetters(FlagLetters(f)) == Some(f)
  {
  }


  /** The pattern as pikzie shows it after ` pattern: `, without the angle brackets. */
  function Render(p: Pattern): string {
    "/" + Source(p) + "/" + FlagLetters(FlagsOf(p))
  }

  /** The position of the last `c` in `s`. */
  function LastIndex(s: string, c: char): (r: Option<nat>)
    ensures r.Some? ==> r.value < |s| && s[r.value] == c
  {
    if s == [] then None
    else if s[|s| - 1] == c then Some(|s| - 1)
    else LastIndex(s[..|s| - 1], c)
  }

  /** Reads a `/pattern/flags` rendering back: the pattern text runs up to
      the last slash, since flag letters contain none. */
  function ParseRendered(r: string): Option<(string, Flags)> {
    if |r| >= 2 && r[0] == '/' then
      match LastIndex(r, '/')
      case Some(k) =>
        if k > 0 then
          match ParseFlagLetters(r[k + 1..])
          case Some(f) => Some((r[1..k], f))
          case None => None
        else None
      case None => None
    else None
  }

  lemma {:induction false} LastIndexAfter(x: string, c: char, tail: string)
    requires c !in tail
    ensures LastIndex(x + [c] + tail, c) == Some(|x|)
    decreases |tail|
  {
    var s := x + [c] + tail;
    if tail != [] {
      assert s[|s| - 1] == tail[|tail| - 1];
      assert s[..|s| - 1] == x + [c] + tail[..|tail| - 1];
      LastIndexAfter(x, c, tail[..|tail| - 1]);
    }
  }

  /** The rendering is unambiguous: it gives back the pattern text and flags. */
  lemma RenderRoundTrip(p: Pattern)
    ensures ParseRendered(Render(p)) == Some((Source(p), FlagsOf(p)))
  {
    var r := Render(p);
    var letters := FlagLetters(FlagsOf(p));
    FlagLettersParse(FlagsOf(p));
    assert r == ("/" + Source(p)) + ['/'] + letters;
    LastIndexAfter("/" + Source(p), '/', letters);
    assert r[1..1 + |Source(p)|] == Source(p);
    assert r[1 + |Source(p)| + 1..] == letters;
  }

  /** The names of the flags, as pikzie prints a compiled pattern. */
  function FlagNames(f: Flags): string {
    if f.ignoreCase && f.locale then "re.IGNORECASE | re.LOCALE"
    else if f.ignoreCase then "re.IGNORECASE"
    else if f.locale then "re.LOCALE"
    else ""
  }

  /** The pattern argument as pikzie shows it inside `re.match(...)` and
      `re.search(...)`: the repr of its text, or a `re.compile` call when
      it has flags. */
  function Argument(p: Pattern): string {
    var f := FlagsOf(p);
    if f == NoFlags then StrRepr(Source(p))
    else "re.compile(" + StrRepr(Source(p)) + ", " + FlagNames(f) + ")"
  }

  lemma PrefixOfConcat(a: string, b: string)
    ensures StartsWith(a + b, a)
  {
    assert (a + b)[..|a|] == a;
  }

  /** Without flags the argument is a repr that reads back as the pattern
      text; with flags it is a `re.compile` call on that repr, naming the
      flags after it. */
  lemma ArgumentShowsSource(p: Pattern)
    ensures FlagsOf(p) == NoFlags ==> Unrepr(Argument(p)) == Some(Source(p))
    ensures FlagsOf(p) != NoFlags ==> StartsWith(Argument(p), "re.compile(" + StrRepr(Source(p)) + ", re.")
  {
    StrReprRoundTrip(Source(p));
    var f := FlagsOf(p);
    if f != NoFlags {
      var call := "re.compile(" + StrRepr(Source(p)) + ", ";
      var names := FlagNames(f);
      assert names == "re." + names[3..];
      var rest := names[3..] + ")";
      assert Argument(p) == (call + "re.") + rest;
      PrefixOfConcat(call + "re.", rest);
    }
  }
}
