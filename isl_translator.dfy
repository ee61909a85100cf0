/**
 * The phrase-to-sign translator (`ISLTranslator.translate` in server/app/isl_translator.py).
 *
 * The text is lower-cased and split into words.  A cursor walks the words; at each position
 * the 3-word, then the 2-word, then the 1-word phrase is looked up in the mapping, and the
 * first hit contributes all its sign entries and moves the cursor past the phrase.  A word
 * that starts no known phrase is skipped.  Every emitted sign starts when the ones before it
 * have finished.
 *
 * The mapping, loaded from JSON in the constructor, is a parameter here.  Durations are
 * exact reals.
 */
module IslTranslator {
  import opened Wrappers
  import opened PyStr

  /** One mapping entry `{"sign": ..., "duration": ...}`; the duration may be absent. */
  datatype MapEntry = MapEntry(sign: string, duration: Option<real>)

  /** One output record `{'sign': ..., 'start': ..., 'duration': ...}`. */
  datatype TimedSign = TimedSign(sign: string, start: real, duration: real)

  type Mapping = map<string, seq<MapEntry>>

  /** `e.get('duration', 1.0)`. */
  function DurationOf(e: MapEntry): real {
    e.duration.GetOr(1.0)
  }

  /** `' '.join(words[i:i+len])`. */
  function Phrase(words: seq<string>, i: nat, len: nat): string
    requires i + len <= |words|
  {
    Join(words[i..i + len], " ")
  }

  /** The phrase length chosen at cursor `i`: the longest of 3, 2, 1 that fits in the
      remaining words and names a mapping key, or None when none does. */
  function Longest(words: seq<string>, m: Mapping, i: nat): (r: Option<nat>)
    ensures r.Some? ==> 1 <= r.value <= 3 && i + r.value <= |words| && Phrase(words, i, r.value) in m
    ensures forall len | (if r.Some? then r.value else 0) < len <= 3 && i + len <= |words| ::
              Phrase(words, i, len) !in m
  {
    if i + 3 <= |words| && Phrase(words, i, 3) in m then Some(3)
    else if i + 2 <= |words| && Phrase(words, i, 2) in m then Some(2)
    else if i + 1 <= |words| && Phrase(words, i, 1) in m then Some(1)
    else None
  }

  /** The mapping entries, in output order, that greedy matching collects from cursor `i` on. */
  function MatchFrom(words: seq<string>, m: Mapping, i: nat): seq<MapEntry>
    decreases |words| - i
  {
    if i >= |words| then []
    else
      match Longest(words, m, i)
      case Some(len) => m[Phrase(words, i, len)] + MatchFrom(words, m, i + len)
      case None => MatchFrom(words, m, i + 1)
  }

  /** `sum(x.get('duration', 1.0) for x in seq)`: the time taken by the signs so far. */
  function Elapsed(out: seq<TimedSign>): real {
    if out == [] then 0.0 else Elapsed(out[..|out| - 1]) + out[|out| - 1].duration
  }

  /** Every sign starts when all signs before it have finished. */
  predicate Scheduled(out: seq<TimedSign>) {
    forall k | 0 <= k < |out| :: out[k].start == Elapsed(out[..k])
  }

  /** The output carries exactly the given entries, in order, with their signs and durations. */
  predicate Carries(out: seq<TimedSign>, entries: seq<MapEntry>) {
    && |out| == |entries|
    && forall k | 0 <= k < |out| :: out[k].sign == entries[k].sign && out[k].duration == DurationOf(entries[k])
  }

  lemma AppendKeepsSchedule(out: seq<TimedSign>, entries: seq<MapEntry>, e: MapEntry)
    requires Scheduled(out) && Carries(out, entries)
    ensures var out' := out + [TimedSign(e.sign, Elapsed(out), DurationOf(e))];
      Scheduled(out') && Carries(out', entries + [e])
  {
    var out' := out + [TimedSign(e.sign, Elapsed(out), DurationOf(e))];
    assert out'[..|out|] == out;
    forall k | 0 <= k < |out| ensures out'[..k] == out[..k] {
    }
  }

  /** The inner `for e in entries: seq.append(...)` loop of `translate`: each entry is
      emitted with its sign and duration, starting when the output so far has finished. */
  method AppendEntries(out: seq<TimedSign>, entries: seq<MapEntry>, ghost consumed: seq<MapEntry>)
    returns (out': seq<TimedSign>)
    requires Carries(out, consumed) && Scheduled(out)
    ensures Carries(out', consumed + entries) && Scheduled(out')
    ensures out'[..|out|] == out
  {
    out' := out;
    var k := 0;
    while k < |entries|
      invariant 0 <= k <= |entries|
      invariant Carries(out', consumed + entries[..k]) && Scheduled(out')
      invariant |out| <= |out'| && out'[..|out|] == out
    {
      var e := entries[k];
      AppendKeepsSchedule(out', consumed + entries[..k], e);
      assert consumed + entries[..k + 1] == consumed + entries[..k] + [e];
      out' := out' + [TimedSign(e.sign, Elapsed(out'), DurationOf(e))];
      k := k + 1;
    }
    assert entries[..k] == entries;
  }

  /** The `for L in (3, 2, 1)` loop of `translate` at cursor `i`: on the first length whose
      phrase is a key, the phrase's entries are emitted and the cursor moves past it. */
  method TryPhrases(words: seq<string>, mapping: Mapping, i: nat, out: seq<TimedSign>, ghost consumed: seq<MapEntry>)
    returns (out': seq<TimedSign>, i': nat, matched: bool)
    requires i < |words|
    requires Carries(out, consumed) && Scheduled(out)
    ensures matched <==> Longest(words, mapping, i).Some?
    ensures matched ==>
              && i < i' <= |words| && Longest(words, mapping, i) == Some(i' - i)
              && Carries(out', consumed + mapping[Phrase(words, i, i' - i)]) && Scheduled(out')
    ensures !matched ==> out' == out && i' == i
  {
    out', i', matched := out, i, false;
    var len := 3;
    while len >= 1
      invariant 0 <= len <= 3
      invariant forall l | len < l <= 3 && i + l <= |words| :: Phrase(words, i, l) !in mapping
      decreases len
    {
      if i + len <= |words| {
        var phrase := Join(words[i..i + len], " ");
        if phrase in mapping {
          var entries := mapping[phrase];
          out' := AppendEntries(out, entries, consumed);
          i' := i + len;
          matched := true;
          break;
        }
      }
      len := len - 1;
    }
  }

  /** `ISLTranslator.translate`: the text is lower-cased and split, then the words are
      matched. */
  method Translate(text: string, mapping: Mapping) returns (out: seq<TimedSign>)
    ensures Carries(out, MatchFrom(Split(Lower(text)), mapping, 0))
    ensures Scheduled(out)
  {
    var words := Split(Lower(text));
    out := TranslateWords(words, mapping);
  }

  /** The `while i < len(words)` cursor loop of `translate`. */
  method TranslateWords(words: seq<string>, mapping: Mapping) returns (out: seq<TimedSign>)
    ensures Carries(out, MatchFrom(words, mapping, 0))
    ensures Scheduled(out)
  {
    out := [];
    ghost var consumed: seq<MapEntry> := [];
    var i := 0;
    while i < |words|
      invariant 0 <= i <= |words|
      invariant MatchFrom(words, mapping, 0) == consumed + MatchFrom(words, mapping, i)
      invariant Carries(out, consumed) && Scheduled(out)
      decreases |words| - i
    {
      var matched;
      ghost var i0 := i;
      MatchFromAt(words, mapping, i);
      out, i, matched := TryPhrases(words, mapping, i, out, consumed);
      if matched {
        ghost var entries := mapping[Phrase(words, i0, i - i0)];
        ConcatAssoc(consumed, entries, MatchFrom(words, mapping, i));
        consumed := consumed + entries;
      } else {
        i := i + 1;
      }
    }
    assert consumed + MatchFrom(words, mapping, i) == consumed;
  }

  lemma ConcatAssoc<T>(a: seq<T>, b: seq<T>, c: seq<T>)
    ensures (a + b) + c == a + (b + c)
  {
  }

  /** One step of `MatchFrom`: a matched phrase contributes its entries and moves the
      cursor past it, an unmatched word moves it by one. */
  lemma MatchFromAt(words: seq<string>, m: Mapping, i: nat)
    requires i < |words|
    ensures match Longest(words, m, i)
      case Some(len) => MatchFrom(words, m, i) == m[Phrase(words, i, len)] + MatchFrom(words, m, i + len)
      case None => MatchFrom(words, m, i) == MatchFrom(words, m, i + 1)
  {
  }

  // ---------------------------------------------------------------- properties

  /** Empty or all-whitespace text translates to no signs. */
  lemma BlankTextTranslatesToNothing(text: string, mapping: Mapping)
    requires forall k | 0 <= k < |text| :: IsSpace(text[k])
    ensures MatchFrom(Split(Lower(text)), mapping, 0) == []
  {
    var lowered := Lower(text);
    forall k | 0 <= k < |lowered| ensures IsSpace(lowered[k]) {
      CaseKeepsSpace(text[k]);
    }
    SplitEmptyIffBlank(lowered);
  }

  predicate NoSpace(key: string) {
    forall k | 0 <= k < |key| :: key[k] != ' '
  }

  lemma JoinedPhraseHasSpace(ws: seq<string>)
    requires |ws| >= 2
    ensures !NoSpace(Join(ws, " "))
  {
    var j := Join(ws, " ");
    assert j == ws[0] + " " + Join(ws[1..], " ");
    assert j[|ws[0]|] == ' ';
  }

  /** The word-by-word reading of the text: each word's entries when it is a key. */
  function LookupEach(ws: seq<string>, m: Mapping): seq<MapEntry> {
    if ws == [] then [] else (if ws[0] in m then m[ws[0]] else []) + LookupEach(ws[1..], m)
  }

  /** When no key contains a space, greedy phrase matching is plain word-by-word lookup. */
  lemma {:induction false} SingleWordKeysMatchWordByWord(words: seq<string>, m: Mapping, i: nat)
    requires i <= |words|
    requires forall key | key in m :: NoSpace(key)
    ensures MatchFrom(words, m, i) == LookupEach(words[i..], m)
    decreases |words| - i
  {
    if i < |words| {
      forall len | 2 <= len <= 3 && i + len <= |words| ensures Phrase(words, i, len) !in m {
        JoinedPhraseHasSpace(words[i..i + len]);
      }
      assert Phrase(words, i, 1) == words[i];
      SingleWordKeysMatchWordByWord(words, m, i + 1);
      assert words[i..][1..] == words[i + 1..];
    } else {
      assert words[i..] == [];
    }
  }

  /** Every emitted entry is an entry of some mapping key. */
  lemma {:induction false} EntriesComeFromMapping(words: seq<string>, m: Mapping, i: nat)
    ensures forall e | e in MatchFrom(words, m, i) :: exists key | key in m :: e in m[key]
    decreases |words| - i
  {
    if i < |words| {
      match Longest(words, m, i)
      case Some(len) => EntriesComeFromMapping(words, m, i + len);
      case None => EntriesComeFromMapping(words, m, i + 1);
    }
  }

  lemma {:induction false} ElapsedGrows(out: seq<TimedSign>, j: nat)
    requires j <= |out|
    requires forall k | 0 <= k < |out| :: out[k].duration >= 0.0
    ensures Elapsed(out[..j]) <= Elapsed(out)
    decreases |out|
  {
    if j < |out| {
      var init := out[..|out| - 1];
      assert init[..j] == out[..j];
      ElapsedGrows(init, j);
    } else {
      assert out[..j] == out;
    }
  }

  /** With non-negative durations the start times never decrease along the output. */
  lemma StartsNonDecreasing(out: seq<TimedSign>)
    requires Scheduled(out)
    requires forall k | 0 <= k < |out| :: out[k].duration >= 0.0
    ensures forall j, k | 0 <= j <= k < |out| :: out[j].start <= out[k].start
  {
    forall j, k | 0 <= j <= k < |out| ensures out[j].start <= out[k].start {
      var pre := out[..k];
      assert pre[..j] == out[..j];
      ElapsedGrows(pre, j);
    }
  }
}
