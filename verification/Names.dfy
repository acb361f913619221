/** Source file names: the pattern of the browser side and the byte scan of the Rust side. */
module Names {
  import opened Common
  import opened Text
  import opened Utf8

  const MAX_NAME := 64
  const MAIN: seq<Byte> := [109, 97, 105, 110, 46, 99]   // main.c

  predicate IsAlphanumeric(c: int) {
    48 <= c <= 57 || 65 <= c <= 90 || 97 <= c <= 122
  }

  predicate IsStem(c: int) {
    IsAlphanumeric(c) || c == 95 || c == 45   // _ and -
  }

  /** `[A-Za-z0-9]`. */
  predicate IsWord(c: int) {
    || 'A' as int <= c <= 'Z' as int
    || 'a' as int <= c <= 'z' as int
    || '0' as int <= c <= '9' as int
  }

  /** `^[A-Za-z0-9][A-Za-z0-9_-]*\.(?:c|h)$` on at most 64 code units. */
  ghost predicate MatchesPattern(t: seq<int>) {
    && 3 <= |t| <= 64
    && IsWord(t[0])
    && (forall i :: 0 <= i < |t| - 2 ==> IsWord(t[i]) || t[i] == '_' as int || t[i] == '-' as int)
    && t[|t| - 2] == '.' as int
    && (t[|t| - 1] == 'c' as int || t[|t| - 1] == 'h' as int)
  }

  function StripSuffix(s: seq<Byte>, suffix: seq<Byte>): Option<seq<Byte>> {
    if |suffix| <= |s| && s[|s| - |suffix|..] == suffix then Some(s[..|s| - |suffix|]) else None
  }

  predicate AllStem(s: seq<Byte>) {
    s == [] || (IsStem(s[0]) && AllStem(s[1..]))
  }

  predicate IsValidSourceFileName(name: seq<Byte>) {
    if |name| > MAX_NAME then false
    else
      var asC := StripSuffix(name, [46, 99]);
      var stem := if asC.Some? then asC else StripSuffix(name, [46, 104]);
      stem.Some? && stem.value != [] && IsAlphanumeric(stem.value[0]) && AllStem(stem.value[1..])
  }

  lemma {:induction false} AllStemMeans(s: seq<Byte>)
    ensures AllStem(s) <==> forall i :: 0 <= i < |s| ==> IsStem(s[i])
  {
    if s != [] {
      AllStemMeans(s[1..]);
      assert forall i :: 0 <= i < |s| ==> s[i] == if i == 0 then s[0] else s[1..][i - 1];
    }
  }

  /** The byte scan finds what the pattern describes. */
  lemma ScanMeans(name: seq<Byte>)
    ensures IsValidSourceFileName(name) <==> MatchesPattern(name)
  {
    if 3 <= |name| {
      var stem := name[..|name| - 2];
      AllStemMeans(stem[1..]);
      assert forall i :: 0 <= i < |stem| ==> stem[i] == if i == 0 then stem[0] else stem[1..][i - 1];
      var tail := name[|name| - 2..];
      assert tail == [name[|name| - 2], name[|name| - 1]];
      assert forall i :: 0 <= i < |name| - 2 ==> name[i] == stem[i];
    }
  }

  lemma PatternIsAscii(s: seq<int>)
    requires MatchesPattern(s)
    ensures Ascii(s)
  {
  }

  /** The two checks accept the same strings, although one counts code units and the other bytes. */
  lemma NamesAgree(t: Text)
    ensures MatchesPattern(t) <==> IsValidSourceFileName(Encode(t))
    ensures MatchesPattern(t) ==> Encode(t) == t
  {
    hide MatchesPattern, IsValidSourceFileName, Encode, Ascii;
    ScanMeans(Encode(t));
    if MatchesPattern(t) {
      PatternIsAscii(t);
      EncodeAscii(t);
    } else if MatchesPattern(Encode(t)) {
      PatternIsAscii(Encode(t));
      AsciiEncoded(t);
      EncodeAscii(t);
    }
  }

  // ---- names that differ in case only --------------------------------------------------------

  function LowerChar(c: int): int {
    if 65 <= c <= 90 then c + 32 else c
  }

  /** Valid names are ASCII, so both `toLowerCase` and `to_ascii_lowercase` do this to them. */
  function Lower(name: seq<int>): seq<int> {
    seq(|name|, i requires 0 <= i < |name| => LowerChar(name[i]))
  }

  /** The set of lower-cased names a validator has collected. */
  function Seen(names: seq<seq<int>>): set<seq<int>> {
    if names == [] then {} else Seen(names[..|names| - 1]) + {Lower(names[|names| - 1])}
  }

  /** Two characters, or names, that differ in the case of letters at most. */
  predicate SameLetter(c: int, d: int) {
    c == d || ('A' as int <= c <= 'Z' as int && d == c + 32) || ('A' as int <= d <= 'Z' as int && c == d + 32)
  }

  ghost predicate SameName(a: seq<int>, b: seq<int>) {
    |a| == |b| && forall i :: 0 <= i < |a| ==> SameLetter(a[i], b[i])
  }

  ghost predicate Unlike(names: seq<seq<int>>) {
    forall i, j :: 0 <= i < j < |names| ==> !SameName(names[i], names[j])
  }

  /** Lower-casing makes exactly those names equal. */
  lemma LowerMeans(a: seq<int>, b: seq<int>)
    ensures Lower(a) == Lower(b) <==> SameName(a, b)
  {
    if Lower(a) == Lower(b) {
      assert |Lower(a)| == |a| && |Lower(b)| == |b|;
      forall i | 0 <= i < |a| ensures SameLetter(a[i], b[i]) {
        assert Lower(a)[i] == Lower(b)[i];
      }
    }
  }

  lemma {:induction false} SeenMeans(names: seq<seq<int>>, x: seq<int>)
    ensures x in Seen(names) <==> exists i :: 0 <= i < |names| && Lower(names[i]) == x
  {
    if names != [] {
      var front := names[..|names| - 1];
      SeenMeans(front, x);
      assert forall i :: 0 <= i < |front| ==> front[i] == names[i];
    }
  }

  /** A name not seen before keeps the list free of repetitions, a seen one ends that. */
  lemma UnlikeGrows(names: seq<seq<int>>, name: seq<int>)
    requires Unlike(names)
    ensures Unlike(names + [name]) <==> Lower(name) !in Seen(names)
    ensures Seen(names + [name]) == Seen(names) + {Lower(name)}
  {
    hide Lower, SameName;
    SeenMeans(names, Lower(name));
    forall i | 0 <= i < |names| ensures Lower(names[i]) == Lower(name) <==> SameName(names[i], name) {
      LowerMeans(names[i], name);
    }
    var more := names + [name];
    assert more[..|more| - 1] == names;
    assert forall i :: 0 <= i < |names| ==> more[i] == names[i];
    assert more[|names|] == name;
  }

  lemma UnlikePrefix(names: seq<seq<int>>, k: nat)
    requires k <= |names| && Unlike(names)
    ensures Unlike(names[..k])
  {
  }
}
