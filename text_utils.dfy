/**
 * The text helpers of src/lib/utils.ts: truncation, read time, case-insensitive `uniq`,
 * keyword tokens, the Hindi category names, and the geo, entity, mention and keyword
 * parts of `deriveAiSeoSignals`.
 */
module TextUtils {
  import opened Wrappers
  import opened Strings
  import opened Seqs

  // ---- truncateText ----

  const Ellipsis: char := '\U{2026}'

  function Max(a: int, b: int): int {
    if a >= b then a else b
  }

  /** `truncateText(input, maxChars)`. */
  function TruncateText(input: string, maxChars: int): (r: string)
    ensures Trim(input) == "" ==> r == ""
    ensures Trim(input) != "" && |Trim(input)| <= maxChars ==> r == Trim(input)
  {
    var text := Trim(input);
    if text == "" then ""
    else if |text| <= maxChars then text
    else Clip(text, maxChars)
  }

  /** The end of the first `maxChars` characters to keep: the last space when it is near enough. */
  function CutPoint(clipped: string, maxChars: int): (m: nat)
    ensures m <= |clipped|
  {
    var lastSpace := LastIndexOf(clipped, ' ');
    if lastSpace >= Max(0, maxChars - 30) then lastSpace else |clipped|
  }

  /** The long case of `truncateText`: the kept part of the clipped text, trimmed, then the ellipsis. */
  function Clip(text: string, maxChars: int): (r: string)
    ensures |r| >= 1 && r[|r| - 1] == Ellipsis
  {
    var clipped := Slice(text, 0, maxChars);
    Trim(clipped[..CutPoint(clipped, maxChars)]) + [Ellipsis]
  }

  /** A text longer than `maxChars` once trimmed ends with the ellipsis. */
  lemma TruncateTextEllipsis(input: string, maxChars: int)
    requires |Trim(input)| > maxChars && Trim(input) != ""
    ensures var r := TruncateText(input, maxChars); |r| >= 1 && r[|r| - 1] == Ellipsis
  {
    var r := Clip(Trim(input), maxChars);
    assert TruncateText(input, maxChars) == r;
  }

  /**
   * A truncated text is a trimmed prefix of the first `maxChars` characters and the ellipsis;
   * the prefix is not empty when at least one character may be kept.
   */
  lemma TruncateTextCut(input: string, maxChars: int)
    requires 0 <= maxChars < |Trim(input)|
    ensures var r := TruncateText(input, maxChars);
            var keep := r[..|r| - 1];
            |keep| <= maxChars && keep == Trim(input)[..|keep|] && IsTrimmed(keep)
            && (maxChars >= 1 ==> keep != "")
  {
    var text := Trim(input);
    assert TruncateText(input, maxChars) == Clip(text, maxChars);
    ClipCut(text, maxChars);
  }

  /**
   * The long case exactly: the first `maxChars` characters are cut at their last space when that
   * space is no more than 30 back, and kept whole otherwise; the kept part is trimmed and the
   * ellipsis follows.
   */
  lemma TruncateTextAtSpace(input: string, maxChars: int, text: string)
    requires text == Trim(input) && 0 <= maxChars < |text|
    ensures var clipped := text[..maxChars];
            var lastSpace := LastIndexOf(clipped, ' ');
            TruncateText(input, maxChars) == (if lastSpace >= 0 && lastSpace >= maxChars - 30 then Trim(clipped[..lastSpace]) else Trim(clipped)) + [Ellipsis]
  {
    assert TruncateText(input, maxChars) == Clip(text, maxChars);
    ClipExact(text, maxChars);
  }

  lemma ClipExact(text: string, maxChars: int)
    requires 0 <= maxChars < |text|
    ensures var clipped := text[..maxChars];
            var lastSpace := LastIndexOf(clipped, ' ');
            Clip(text, maxChars) == (if lastSpace >= 0 && lastSpace >= maxChars - 30 then Trim(clipped[..lastSpace]) else Trim(clipped)) + [Ellipsis]
  {
    var clipped := text[..maxChars];
    assert Slice(text, 0, maxChars) == clipped;
    var lastSpace := LastIndexOf(clipped, ' ');
    assert Clip(text, maxChars) == Trim(clipped[..CutPoint(clipped, maxChars)]) + [Ellipsis];
    if lastSpace >= 0 && lastSpace >= maxChars - 30 {
      assert CutPoint(clipped, maxChars) == lastSpace;
    } else {
      assert CutPoint(clipped, maxChars) == |clipped|;
      assert clipped[..|clipped|] == clipped;
    }
  }

  /** The long case on a trimmed text: what `TruncateTextCut` states, before trimming. */
  lemma ClipCut(text: string, maxChars: int)
    requires IsTrimmed(text) && 0 <= maxChars < |text|
    ensures var r := Clip(text, maxChars);
            var keep := r[..|r| - 1];
            |keep| <= maxChars && keep == text[..|keep|] && IsTrimmed(keep)
            && (maxChars >= 1 ==> keep != "")
  {
    var clipped := text[..maxChars];
    assert Slice(text, 0, maxChars) == clipped;
    var m := CutPoint(clipped, maxChars);
    assert clipped[..m] == text[..m];
    var keep := Trim(text[..m]);
    assert Clip(text, maxChars) == keep + [Ellipsis];
    assert (keep + [Ellipsis])[..|keep|] == keep;
    TrimOfPrefix(text, m);
    if maxChars >= 1 {
      assert text[0] == clipped[0] && !IsSpace(text[0]);
      assert m >= 1;
      assert text[..m][0] == text[0];
      TrimEmptyIffAllSpace(text[..m]);
    }
  }

  /** Trimming a prefix of a trimmed text only drops characters at its end. */
  lemma TrimOfPrefix(text: string, m: nat)
    requires IsTrimmed(text) && m <= |text|
    ensures |Trim(text[..m])| <= m && Trim(text[..m]) == text[..|Trim(text[..m])|]
  {
    var x := text[..m];
    if x != [] {
      assert x[0] == text[0];
      assert TrimStart(x) == x;
    }
  }

  // ---- computeReadTimeMinutes ----

  /** Whole minutes for `words` words at 200 a minute, at least one. */
  function MinutesForWords(words: int): (r: int)
    ensures r >= 1
    ensures words > 0 ==> r == CeilDiv(words, 200)
    ensures words > 0 ==> 200 * (r - 1) < words <= 200 * r
  {
    if words <= 0 then 1 else Max(1, CeilDiv(words, 200))
  }

  /** `computeReadTimeMinutes(text)`: whole minutes at 200 words a minute, at least one. */
  function ReadTimeMinutes(text: string): (r: int)
    ensures r >= 1
    ensures WordCount(Trim(text)) > 0 ==> 200 * (r - 1) < WordCount(Trim(text)) <= 200 * r
  {
    MinutesForWords(WordCount(Trim(text)))
  }

  // ---- uniq ----

  /** The keys of the items. */
  function KeysOf<T, K(==)>(s: seq<T>, key: T -> K): set<K> {
    set i | 0 <= i < |s| :: key(s[i])
  }

  lemma KeysOfSnoc<T, K>(s: seq<T>, x: T, key: T -> K)
    ensures KeysOf(s + [x], key) == KeysOf(s, key) + {key(x)}
  {
    var t := s + [x];
    assert key(t[|s|]) == key(x);
    forall k | k in KeysOf(s, key) ensures k in KeysOf(t, key) {
      var i :| 0 <= i < |s| && key(s[i]) == k;
      assert t[i] == s[i];
    }
    forall k | k in KeysOf(t, key) ensures k in KeysOf(s, key) + {key(x)} {
      var i :| 0 <= i < |t| && key(t[i]) == k;
      if i < |s| {
        assert t[i] == s[i];
      }
    }
  }

  /** The items whose key no earlier item has, in their original order: what `uniq` keeps. */
  function FirstOccurrences<T, K(==)>(s: seq<T>, key: T -> K): (r: seq<T>)
    ensures |r| <= |s|
  {
    if s == [] then []
    else
      var init := s[..|s| - 1];
      FirstOccurrences(init, key) + (if key(s[|s| - 1]) in KeysOf(init, key) then [] else [s[|s| - 1]])
  }

  /** `uniq(items)`, comparing the items by `key`: lower-cased text for strings, the record itself otherwise. */
  method Uniq<T, K(==)>(items: seq<T>, key: T -> K) returns (out: seq<T>)
    ensures out == FirstOccurrences(items, key)
  {
    var seen: set<K> := {};
    out := [];
    for i := 0 to |items|
      invariant out == FirstOccurrences(items[..i], key)
      invariant seen == KeysOf(items[..i], key)
    {
      assert items[..i + 1] == items[..i] + [items[i]];
      assert items[..i + 1][..i] == items[..i];
      KeysOfSnoc(items[..i], items[i], key);
      var k := key(items[i]);
      if k !in seen {
        seen := seen + {k};
        out := out + [items[i]];
      }
    }
    assert items[..|items|] == items;
  }

  predicate DistinctKeys<T, K(==)>(s: seq<T>, key: T -> K) {
    forall i, j :: 0 <= i < j < |s| ==> key(s[i]) != key(s[j])
  }

  /** `uniq` keeps one item for every key, each one of the input's, and no two with the same key. */
  lemma {:induction false} FirstOccurrencesKeys<T, K>(s: seq<T>, key: T -> K)
    ensures KeysOf(FirstOccurrences(s, key), key) == KeysOf(s, key)
    ensures DistinctKeys(FirstOccurrences(s, key), key)
    ensures forall j :: 0 <= j < |FirstOccurrences(s, key)| ==> FirstOccurrences(s, key)[j] in s
  {
    if s != [] {
      var init := s[..|s| - 1];
      var x := s[|s| - 1];
      assert s == init + [x];
      FirstOccurrencesKeys(init, key);
      KeysOfSnoc(init, x, key);
      var f := FirstOccurrences(init, key);
      forall j | 0 <= j < |f| ensures key(f[j]) in KeysOf(init, key) {
        assert key(f[j]) in KeysOf(f, key);
      }
      if key(x) in KeysOf(init, key) {
        assert FirstOccurrences(s, key) == f + [];
        assert f + [] == f;
      } else {
        assert FirstOccurrences(s, key) == f + [x];
        KeysOfSnoc(f, x, key);
        var r := f + [x];
        forall i, j | 0 <= i < j < |r| ensures key(r[i]) != key(r[j]) {
          if j == |f| {
            assert r[i] == f[i];
          } else {
            assert r[i] == f[i] && r[j] == f[j];
          }
        }
        forall j | 0 <= j < |r| ensures r[j] in s {
          if j < |f| {
            assert r[j] == f[j];
          }
        }
      }
    }
  }

  /** Every kept item is the first of the input's items with its key. */
  lemma {:induction false} FirstOccurrencesAreFirst<T, K>(s: seq<T>, key: T -> K)
    ensures forall j :: 0 <= j < |FirstOccurrences(s, key)| ==>
              exists i :: 0 <= i < |s| && s[i] == FirstOccurrences(s, key)[j] && key(s[i]) !in KeysOf(s[..i], key)
  {
    if s != [] {
      var init := s[..|s| - 1];
      var x := s[|s| - 1];
      FirstOccurrencesAreFirst(init, key);
      var f := FirstOccurrences(init, key);
      var r := FirstOccurrences(s, key);
      var isNew := key(x) !in KeysOf(init, key);
      assert r == f + (if isNew then [x] else []);
      forall j | 0 <= j < |r| ensures exists i :: 0 <= i < |s| && s[i] == r[j] && key(s[i]) !in KeysOf(s[..i], key) {
        if j < |f| {
          var i :| 0 <= i < |init| && init[i] == f[j] && key(init[i]) !in KeysOf(init[..i], key);
          assert s[..i] == init[..i] && s[i] == init[i] && r[j] == f[j];
        } else {
          assert isNew && r[j] == x && s[..|s| - 1] == init;
          assert s[|s| - 1] == r[j] && key(s[|s| - 1]) !in KeysOf(s[..|s| - 1], key);
        }
      }
      assert r == FirstOccurrences(s, key);
    } else {
      assert FirstOccurrences(s, key) == [];
    }
  }

  /** `uniq` keeps the relative order of the items it keeps. */
  lemma {:induction false} FirstOccurrencesOrdered<T, K>(s: seq<T>, key: T -> K)
    ensures IsSubsequence(FirstOccurrences(s, key), s)
  {
    if s != [] {
      var init := s[..|s| - 1];
      var x := s[|s| - 1];
      FirstOccurrencesOrdered(init, key);
      var f := FirstOccurrences(init, key);
      SubsequenceAppend(f, init, x);
      assert init + [x] == s;
      if key(x) in KeysOf(init, key) {
        assert FirstOccurrences(s, key) == f + [];
        assert f + [] == f;
      } else {
        assert FirstOccurrences(s, key) == f + [x];
      }
    }
  }

  /** Items whose keys are already distinct are all kept. */
  lemma {:induction false} FirstOccurrencesOfDistinct<T, K>(s: seq<T>, key: T -> K)
    requires DistinctKeys(s, key)
    ensures FirstOccurrences(s, key) == s
  {
    if s != [] {
      var init := s[..|s| - 1];
      var x := s[|s| - 1];
      assert DistinctKeys(init, key) by {
        forall i, j | 0 <= i < j < |init| ensures key(init[i]) != key(init[j]) {
          assert init[i] == s[i] && init[j] == s[j];
        }
      }
      FirstOccurrencesOfDistinct(init, key);
      forall i | 0 <= i < |init| ensures key(init[i]) != key(x) {
        assert s[i] == init[i];
      }
      assert key(x) !in KeysOf(init, key);
      assert init + [x] == s;
    }
  }

  /** Applying `uniq` twice changes nothing. */
  lemma UniqIdempotent<T, K>(s: seq<T>, key: T -> K)
    ensures FirstOccurrences(FirstOccurrences(s, key), key) == FirstOccurrences(s, key)
  {
    FirstOccurrencesKeys(s, key);
    FirstOccurrencesOfDistinct(FirstOccurrences(s, key), key);
  }

  /** On strings, no two kept items are equal ignoring case. */
  lemma UniqIgnoresCase(s: seq<string>)
    ensures forall i, j :: 0 <= i < j < |FirstOccurrences(s, Lower)| ==>
              Lower(FirstOccurrences(s, Lower)[i]) != Lower(FirstOccurrences(s, Lower)[j])
  {
    FirstOccurrencesKeys(s, Lower);
  }

  // ---- toTokenKeywords ----

  /** The stop list, in the source's order: nineteen Hindi words and fifteen English ones. */
  const StopWords: set<string> := {
    "\U{0914}\U{0930}", "\U{0915}\U{093E}", "\U{0915}\U{0940}", "\U{0915}\U{0947}",
    "\U{092E}\U{0947}\U{0902}", "\U{0938}\U{0947}", "\U{092A}\U{0930}", "\U{0915}\U{094B}",
    "\U{0932}\U{093F}\U{090F}", "\U{092F}\U{0939}", "\U{0935}\U{0939}", "\U{0925}\U{093E}",
    "\U{0925}\U{0947}", "\U{0939}\U{0948}", "\U{0939}\U{0948}\U{0902}", "\U{0928}\U{0947}",
    "\U{092D}\U{0940}", "\U{0924}\U{094B}", "\U{0915}\U{093F}",
    "as", "at", "be", "by", "for", "from", "in", "is", "it", "of", "on", "or", "the", "to", "with"}

  /** Every character `keep` rejects becomes a space. */
  function Blank(s: string, keep: char -> bool): (r: string)
    ensures |r| == |s|
    ensures forall i :: 0 <= i < |s| ==> r[i] == (if keep(s[i]) then s[i] else ' ')
  {
    seq(|s|, i requires 0 <= i < |s| => if keep(s[i]) then s[i] else ' ')
  }

  /** `cleaned.split(" ")` of the collapsed and trimmed text: its whitespace-separated words. */
  function Words(cleaned: string): (r: seq<string>)
    ensures forall k :: 0 <= k < |r| ==> r[k] != "" && NoSpace(r[k])
  {
    var pieces := SplitSpaces(cleaned);
    var r := NonEmpty(pieces);
    assert forall k :: 0 <= k < |r| ==> r[k] in pieces;
    r
  }

  predicate LongEnough(t: string) {
    |t| >= 3
  }

  /** `!STOP_WORDS.has(t.toLowerCase())`. */
  predicate NotStopWord(t: string) {
    Lower(t) !in StopWords
  }

  /** The words of three or more characters that are not stop words. */
  function KeptTokens(cleaned: string): (r: seq<string>)
    ensures forall k :: 0 <= k < |r| ==> |r[k]| >= 3 && NotStopWord(r[k])
  {
    Filter(Filter(Words(cleaned), LongEnough), NotStopWord)
  }

  /** The kept tokens are exactly the long enough words that are not stop words. */
  lemma KeptTokensExactly(cleaned: string)
    ensures forall k :: 0 <= k < |KeptTokens(cleaned)| ==> KeptTokens(cleaned)[k] in Words(cleaned) && NoSpace(KeptTokens(cleaned)[k])
    ensures forall w :: w in Words(cleaned) && |w| >= 3 && NotStopWord(w) ==> w in KeptTokens(cleaned)
  {
    var words := Words(cleaned);
    var long := Filter(words, LongEnough);
    FilterTwiceMembers(words, LongEnough, NotStopWord);
    FilterTwiceComplete(words, LongEnough, NotStopWord);
  }

  /** What two filters keep is an item of the list. */
  lemma FilterTwiceMembers<T>(s: seq<T>, p: T -> bool, q: T -> bool)
    ensures forall k :: 0 <= k < |Filter(Filter(s, p), q)| ==> Filter(Filter(s, p), q)[k] in s
  {
    var once := Filter(s, p);
    var r := Filter(once, q);
    forall k | 0 <= k < |r| ensures r[k] in s {
      assert r[k] in once;
    }
  }

  /** Two filters keep every item meeting both tests. */
  lemma FilterTwiceComplete<T>(s: seq<T>, p: T -> bool, q: T -> bool)
    ensures forall x :: x in s && p(x) && q(x) ==> x in Filter(Filter(s, p), q)
  {
    var once := Filter(s, p);
    forall x | x in s && p(x) && q(x) ensures x in Filter(once, q) {
      var i :| 0 <= i < |s| && s[i] == x;
      assert x in once;
      var j :| 0 <= j < |once| && once[j] == x;
    }
  }

  /** The characters `[^\p{L}\p{N}\s-]+` leaves alone; `isLetterOrNumber` stands for `\p{L}` and `\p{N}`. */
  function KeepAsWritten(isLetterOrNumber: char -> bool): char -> bool {
    (c: char) => isLetterOrNumber(c) || IsSpace(c) || c == '-'
  }

  /** The same character class with the marks (`isMark`, `\p{M}`) added. */
  function KeepWithMarks(isLetterOrNumber: char -> bool, isMark: char -> bool): char -> bool {
    (c: char) => isLetterOrNumber(c) || isMark(c) || IsSpace(c) || c == '-'
  }

  /**
   * `toTokenKeywords(text)` as written: the character class also removes the vowel signs of
   * Devanagari, which are marks, not letters.
   */
  function TokenKeywordsAsWritten(text: string, isLetterOrNumber: char -> bool): (r: seq<string>)
    ensures forall k :: 0 <= k < |r| ==> |r[k]| >= 3 && NotStopWord(r[k])
  {
    KeptTokens(Blank(text, KeepAsWritten(isLetterOrNumber)))
  }

  /** `toTokenKeywords(text)` keeping marks as part of words. */
  function TokenKeywords(text: string, isLetterOrNumber: char -> bool, isMark: char -> bool): (r: seq<string>)
    ensures forall k :: 0 <= k < |r| ==> |r[k]| >= 3 && NotStopWord(r[k])
  {
    KeptTokens(Blank(text, KeepWithMarks(isLetterOrNumber, isMark)))
  }

  /** A word made only of letters, numbers and marks is a keyword of the corrected version when it is long enough and not a stop word. */
  lemma TokenKeywordsKeepsWholeWords(w: string, isLetterOrNumber: char -> bool, isMark: char -> bool)
    requires |w| >= 3 && NotStopWord(w)
    requires forall i :: 0 <= i < |w| ==> (isLetterOrNumber(w[i]) || isMark(w[i])) && !IsSpace(w[i])
    ensures TokenKeywords(w, isLetterOrNumber, isMark) == [w]
  {
    BlankKeepsAll(w, KeepWithMarks(isLetterOrNumber, isMark));
    assert TokenKeywords(w, isLetterOrNumber, isMark) == KeptTokens(w);
    assert NoSpace(w);
    WordsOfWord(w);
    KeptOfWords(w);
  }

  lemma BlankKeepsAll(w: string, keep: char -> bool)
    requires forall i :: 0 <= i < |w| ==> keep(w[i])
    ensures Blank(w, keep) == w
  {
  }

  lemma WordsOfWord(w: string)
    requires w != [] && NoSpace(w)
    ensures Words(w) == [w]
  {
    SplitSpacesOfWord(w);
    assert NonEmpty([w]) == [w] by {
      assert [w][1..] == [];
    }
  }

  lemma KeptOfWords(w: string)
    requires Words(w) == [w] && |w| >= 3 && NotStopWord(w)
    ensures KeptTokens(w) == [w]
  {
    FilterSingleton(w, LongEnough);
    FilterSingleton(w, NotStopWord);
  }

  lemma FilterSingleton<T>(x: T, p: T -> bool)
    requires p(x)
    ensures Filter([x], p) == [x]
  {
    assert x in Filter([x], p);
  }

  lemma {:induction false} SplitSpacesOfWord(w: string)
    requires w != [] && NoSpace(w)
    ensures SplitSpaces(w) == [w]
  {
    if |w| == 1 {
      assert SplitSpaces(w[1..]) == [""];
      assert [w[0]] + "" == w;
    } else {
      SplitSpacesOfWord(w[1..]);
      assert [w[0]] + w[1..] == w;
    }
  }

  /** The word सरकार ("government") as written loses its vowel sign and yields the fragment सरक. */
  lemma TokenKeywordsSplitsHindiWords(w: string, sa: char, ra: char, ka: char, aa: char,
                                      isLetterOrNumber: char -> bool, isMark: char -> bool)
    requires sa == '\U{0938}' && ra == '\U{0930}' && ka == '\U{0915}' && aa == '\U{093E}'
    requires w == [sa, ra, ka, aa, ra]
    requires isLetterOrNumber(sa) && isLetterOrNumber(ra) && isLetterOrNumber(ka) && !isLetterOrNumber(aa) && isMark(aa)
    ensures TokenKeywordsAsWritten(w, isLetterOrNumber) == [[sa, ra, ka]]
    ensures TokenKeywords(w, isLetterOrNumber, isMark) == [w]
  {
    assert !IsSpace(aa);
    BlankDropsVowelSign(w, sa, ra, ka, aa, isLetterOrNumber);
    FragmentKept([sa, ra, ka], ra);
    SarkarChars(w, sa, ra, ka, aa, isLetterOrNumber, isMark);
    LongDevanagariKept(w);
    TokenKeywordsKeepsWholeWords(w, isLetterOrNumber, isMark);
  }

  /** Every character of सरकार is Devanagari, and a letter or a mark that is not a space. */
  lemma SarkarChars(w: string, sa: char, ra: char, ka: char, aa: char,
                    isLetterOrNumber: char -> bool, isMark: char -> bool)
    requires sa == '\U{0938}' && ra == '\U{0930}' && ka == '\U{0915}' && aa == '\U{093E}'
    requires w == [sa, ra, ka, aa, ra]
    requires isLetterOrNumber(sa) && isLetterOrNumber(ra) && isLetterOrNumber(ka) && isMark(aa)
    ensures forall i :: 0 <= i < |w| ==> '\U{0900}' <= w[i] <= '\U{097F}'
    ensures forall i :: 0 <= i < |w| ==> (isLetterOrNumber(w[i]) || isMark(w[i])) && !IsSpace(w[i])
  {
    assert forall i :: 0 <= i < |w| ==> w[i] == sa || w[i] == ra || w[i] == ka || w[i] == aa;
    assert !IsSpace(sa) && !IsSpace(ra) && !IsSpace(ka) && !IsSpace(aa);
  }

  /** The character class as written blanks the vowel sign of सरकार. */
  lemma BlankDropsVowelSign(w: string, sa: char, ra: char, ka: char, aa: char, isLetterOrNumber: char -> bool)
    requires w == [sa, ra, ka, aa, ra] && !IsSpace(aa) && aa != '-'
    requires isLetterOrNumber(sa) && isLetterOrNumber(ra) && isLetterOrNumber(ka) && !isLetterOrNumber(aa)
    ensures Blank(w, KeepAsWritten(isLetterOrNumber)) == [sa, ra, ka] + [' '] + [ra]
  {
    var keep := KeepAsWritten(isLetterOrNumber);
    assert keep(sa) && keep(ra) && keep(ka) && !keep(aa);
  }

  lemma FragmentWords(fragment: string, ra: char)
    requires |fragment| == 3 && NoSpace(fragment) && !IsSpace(ra)
    ensures Words(fragment + [' '] + [ra]) == [fragment, [ra]]
  {
    SplitSpacesAt(fragment, [ra]);
    SplitSpacesOfWord([ra]);
    assert [fragment] + [[ra]] == [fragment, [ra]];
    assert NonEmpty([fragment, [ra]]) == [fragment, [ra]] by {
      assert [fragment, [ra]][1..] == [[ra]];
      assert [[ra]][1..] == [];
    }
  }

  lemma FragmentKept(fragment: string, ra: char)
    requires fragment == ['\U{0938}', '\U{0930}', '\U{0915}'] && ra == '\U{0930}'
    ensures KeptTokens(fragment + [' '] + [ra]) == [fragment]
  {
    FragmentWords(fragment, ra);
    FragmentNotStopWord(fragment);
    FragmentLongEnough(fragment, ra);
    FilterSingleton(fragment, NotStopWord);
  }

  lemma FragmentNotStopWord(fragment: string)
    requires fragment == ['\U{0938}', '\U{0930}', '\U{0915}']
    ensures NotStopWord(fragment)
  {
    LowerOfDevanagari(fragment);
  }

  lemma FragmentLongEnough(fragment: string, ra: char)
    requires |fragment| == 3
    ensures Filter([fragment, [ra]], LongEnough) == [fragment]
  {
    assert [fragment, [ra]][1..] == [[ra]];
    assert Filter([[ra]], LongEnough) == [];
  }

  /** A Devanagari word of five or more characters is not a stop word, whatever its case. */
  lemma LongDevanagariKept(w: string)
    requires |w| >= 5 && forall i :: 0 <= i < |w| ==> '\U{0900}' <= w[i] <= '\U{097F}'
    ensures NotStopWord(w)
  {
    LowerOfDevanagari(w);
    StopWordsAreShort();
  }

  /** No stop word has more than four characters. */
  lemma StopWordsAreShort()
    ensures forall t :: t in StopWords ==> |t| <= 4
  {
  }

  /** Splitting a word, one space and the rest at the space. */
  lemma {:induction false} SplitSpacesAt(x: string, y: string)
    requires x != [] && NoSpace(x) && (y == [] || !IsSpace(y[0]))
    ensures SplitSpaces(x + [' '] + y) == [x] + SplitSpaces(y)
  {
    var s := x + [' '] + y;
    assert s[0] == x[0];
    if |x| == 1 {
      assert s[1..] == [' '] + y;
      assert TrimStart(y) == y;
      assert ([' '] + y)[1..] == y;
      assert SplitSpaces([' '] + y) == [""] + SplitSpaces(y);
      assert [x[0]] + "" == x;
    } else {
      assert s[1..] == x[1..] + [' '] + y;
      SplitSpacesAt(x[1..], y);
      assert [x[0]] + x[1..] == x;
    }
  }

  /** Lower-casing leaves text without ASCII capitals or U+0130 unchanged. */
  lemma {:induction false} LowerOfDevanagari(s: string)
    requires forall i :: 0 <= i < |s| ==> '\U{0900}' <= s[i] <= '\U{097F}'
    ensures Lower(s) == s
  {
    if s != [] {
      LowerOfDevanagari(s[1..]);
      assert LowerChar(s[0]) == [s[0]];
      assert [s[0]] + s[1..] == s;
    }
  }

  // ---- getCategoryHindi ----

  const ValidNewsCategories: seq<string> := [
    "rampur", "up", "national", "politics", "crime", "education-jobs", "business",
    "entertainment", "sports", "health", "religion-culture", "food-lifestyle", "nearby"]

  const CategoryNames: map<string, string> := map[
    "rampur" := "\U{0930}\U{093E}\U{092E}\U{092A}\U{0941}\U{0930}",
    "up" := "\U{0909}\U{0924}\U{094D}\U{0924}\U{0930} \U{092A}\U{094D}\U{0930}\U{0926}\U{0947}\U{0936}",
    "national" := "\U{0926}\U{0947}\U{0936}",
    "politics" := "\U{0930}\U{093E}\U{091C}\U{0928}\U{0940}\U{0924}\U{093F}",
    "crime" := "\U{0905}\U{092A}\U{0930}\U{093E}\U{0927}",
    "education-jobs" := "\U{0936}\U{093F}\U{0915}\U{094D}\U{0937}\U{093E} \U{0914}\U{0930} \U{0928}\U{094C}\U{0915}\U{0930}\U{093F}\U{092F}\U{093E}\U{0902}",
    "business" := "\U{0935}\U{094D}\U{092F}\U{093E}\U{092A}\U{093E}\U{0930}",
    "entertainment" := "\U{092E}\U{0928}\U{094B}\U{0930}\U{0902}\U{091C}\U{0928}",
    "sports" := "\U{0916}\U{0947}\U{0932}",
    "health" := "\U{0938}\U{094D}\U{0935}\U{093E}\U{0938}\U{094D}\U{0925}\U{094D}\U{092F}",
    "religion-culture" := "\U{0927}\U{0930}\U{094D}\U{092E}-\U{0938}\U{0902}\U{0938}\U{094D}\U{0915}\U{0943}\U{0924}\U{093F}",
    "food-lifestyle" := "\U{0916}\U{093E}\U{0928}-\U{092A}\U{093E}\U{0928} \U{0914}\U{0930} \U{091C}\U{0940}\U{0935}\U{0928}\U{0936}\U{0948}\U{0932}\U{0940}",
    "nearby" := "\U{0906}\U{0938}-\U{092A}\U{093E}\U{0938}"]

  /**
   * The names `Object.prototype` gives every object literal. Looking one of them up in
   * `categoryMap` reads the inherited function (or, for `__proto__`, the prototype itself).
   */
  const ObjectPrototypeKeys: set<string> := {
    "constructor", "__proto__", "toString", "toLocaleString", "valueOf", "hasOwnProperty",
    "isPrototypeOf", "propertyIsEnumerable", "__defineGetter__", "__defineSetter__",
    "__lookupGetter__", "__lookupSetter__"}

  /** What `categoryMap[category] || category` yields: a string, or a truthy inherited member. */
  datatype CategoryLookup = Text(text: string) | PrototypeMember(key: string)

  /** `getCategoryHindi(category)`: the Hindi name of a known slug, an inherited member for a prototype key, any other text unchanged. */
  function CategoryHindi(category: string): (r: CategoryLookup)
    ensures category in CategoryNames ==> r == Text(CategoryNames[category]) && CategoryNames[category] != ""
    ensures category !in CategoryNames && category in ObjectPrototypeKeys ==> r == PrototypeMember(category)
    ensures category !in CategoryNames && category !in ObjectPrototypeKeys ==> r == Text(category)
  {
    if category in CategoryNames && CategoryNames[category] != "" then Text(CategoryNames[category])
    else if category in ObjectPrototypeKeys then PrototypeMember(category)
    else Text(category)
  }

  /** The thirteen valid categories are exactly the mapped slugs, and each gets a Hindi name different from its slug. */
  lemma ValidCategoriesMapped()
    ensures |ValidNewsCategories| == 13
    ensures CategoryNames.Keys == set c | c in ValidNewsCategories
    ensures forall c :: c in ValidNewsCategories ==> CategoryHindi(c).Text? && CategoryHindi(c).text != c
  {
    forall c | c in ValidNewsCategories ensures CategoryHindi(c).Text? && CategoryHindi(c).text != c {
      assert c in CategoryNames;
      assert |CategoryNames[c]| > 0 && CategoryNames[c][0] >= '\U{0900}';
    }
  }

  // ---- deriveAiSeoSignals: geo region ----

  const Rampur := "\U{0930}\U{093E}\U{092E}\U{092A}\U{0941}\U{0930}"
  const UttarPradesh := "\U{0909}\U{0924}\U{094D}\U{0924}\U{0930} \U{092A}\U{094D}\U{0930}\U{0926}\U{0947}\U{0936}"
  const Upee := "\U{092F}\U{0942}\U{092A}\U{0940}"
  const Bharat := "\U{092D}\U{093E}\U{0930}\U{0924}"

  /** `geoTokens`, in the source's order. */
  const GeoTokens: seq<string> := [Rampur, "Rampur", UttarPradesh, Upee, "Uttar Pradesh", "UP", Bharat, "India"]

  datatype Region = RampurRegion | UpRegion | IndiaRegion | UnknownRegion

  predicate NamesRampur(corpus: string, category: string) {
    Contains(corpus, Rampur) || Contains(corpus, "Rampur") || category == "rampur"
  }

  predicate NamesUp(corpus: string, category: string) {
    Contains(corpus, UttarPradesh) || Contains(corpus, Upee) || Contains(corpus, "Uttar Pradesh") || category == "up"
  }

  predicate NamesIndia(corpus: string) {
    Contains(corpus, Bharat) || Contains(corpus, "India")
  }

  /** The region of `geoRelevance`; its floating-point score is not modelled. */
  function GeoRegion(corpus: string, category: string): (r: Region)
    ensures r == RampurRegion <==> NamesRampur(corpus, category)
    ensures r == UpRegion <==> !NamesRampur(corpus, category) && NamesUp(corpus, category)
    ensures r == IndiaRegion <==> !NamesRampur(corpus, category) && !NamesUp(corpus, category) && NamesIndia(corpus)
    ensures r == UnknownRegion <==> !NamesRampur(corpus, category) && !NamesUp(corpus, category) && !NamesIndia(corpus)
  {
    if NamesRampur(corpus, category) then RampurRegion
    else if NamesUp(corpus, category) then UpRegion
    else if NamesIndia(corpus) then IndiaRegion
    else UnknownRegion
  }

  /** The Rampur category outranks any place the text names. */
  lemma RampurCategoryWins(corpus: string)
    ensures GeoRegion(corpus, "rampur") == RampurRegion
  {
  }

  // ---- deriveAiSeoSignals: entities, mentions and keywords ----

  datatype EntityType = Person | Place | Organization | Thing

  /** `AiSeoEntity`; the score is kept in hundredths (0.6 is 60), which every score of the code is a whole number of. */
  datatype Entity = Entity(name: string, kind: EntityType, score: int)

  const Sarkar := "\U{0938}\U{0930}\U{0915}\U{093E}\U{0930}"
  const Police := "\U{092A}\U{0941}\U{0932}\U{093F}\U{0938}"
  const Court := "\U{0915}\U{094B}\U{0930}\U{094D}\U{091F}"
  const Mantralay := "\U{092E}\U{0902}\U{0924}\U{094D}\U{0930}\U{093E}\U{0932}\U{092F}"

  /** `orgHints`, matched against the whole corpus. */
  const OrgHints: seq<string> := [Sarkar, Police, Court,
    "\U{0928}\U{094D}\U{092F}\U{093E}\U{092F}\U{093E}\U{0932}\U{092F}", Mantralay,
    "\U{0935}\U{093F}\U{092D}\U{093E}\U{0917}", "\U{0915}\U{092E}\U{0947}\U{091F}\U{0940}",
    "\U{0938}\U{0902}\U{0917}\U{0920}\U{0928}"]

  predicate HasOrgHint(corpus: string) {
    exists k :: 0 <= k < |OrgHints| && Contains(corpus, OrgHints[k])
  }

  /** The type given to a Hindi phrase of the title. */
  function PhraseType(p: string): EntityType {
    if Contains(p, Sarkar) || Contains(p, Police) || Contains(p, Court) || Contains(p, Mantralay) then Organization
    else if p in GeoTokens then Place
    else Thing
  }

  function HindiEntity(p: string): Entity {
    Entity(p, PhraseType(p), 60)
  }

  function PersonEntity(p: string): Entity {
    Entity(p, Person, 55)
  }

  function PlaceEntity(p: string): Entity {
    Entity(p, Place, 70)
  }

  function TagEntity(p: string): Entity {
    Entity(p, Thing, 40)
  }

  /** `names.map(f)`. */
  function MapNames(names: seq<string>, f: string -> Entity): (r: seq<Entity>)
    ensures |r| == |names|
    ensures forall k :: 0 <= k < |r| ==> r[k] == f(names[k])
  {
    if names == [] then [] else MapNames(names[..|names| - 1], f) + [f(names[|names| - 1])]
  }

  /** The geo tokens the corpus contains, in order. */
  function PresentGeoTokens(tokens: seq<string>, corpus: string): (r: seq<string>)
    ensures forall k :: 0 <= k < |r| ==> r[k] in tokens && Contains(corpus, r[k])
  {
    if tokens == [] then []
    else
      var init := tokens[..|tokens| - 1];
      var last := tokens[|tokens| - 1];
      var r := PresentGeoTokens(init, corpus) + (if Contains(corpus, last) then [last] else []);
      assert forall k :: 0 <= k < |init| ==> init[k] in tokens;
      r
  }

  /** The input `deriveAiSeoSignals` reads; a missing text is `""`. */
  datatype SeoInput = SeoInput(
    title: string, excerpt: string, content: string, category: string, categoryHindi: string,
    tags: Option<seq<string>>)

  /** `rawEntities` once every push has run; `tokens` is `geoTokens`. */
  function RawEntities(hindiPhrases: seq<string>, englishProper: seq<string>, tokens: seq<string>,
                       corpus: string, input: SeoInput): seq<Entity> {
    MapNames(hindiPhrases, HindiEntity)
    + MapNames(englishProper, PersonEntity)
    + MapNames(PresentGeoTokens(tokens, corpus), PlaceEntity)
    + InputEntities(input)
  }

  /** The entities pushed for the category and the first eight tags. */
  function InputEntities(input: SeoInput): seq<Entity> {
    (if input.categoryHindi != "" then [Entity(input.categoryHindi, Thing, 45)] else [])
    + (if input.category != "" then [Entity(input.category, Thing, 35)] else [])
    + (if input.tags.Some? then MapNames(Slice(input.tags.value, 0, 8), TagEntity) else [])
  }

  /** `for (const p of names) rawEntities.push(f(p))`. */
  method PushEntities(raw: seq<Entity>, names: seq<string>, f: string -> Entity) returns (r: seq<Entity>)
    ensures r == raw + MapNames(names, f)
  {
    r := raw;
    for i := 0 to |names|
      invariant r == raw + MapNames(names[..i], f)
    {
      assert names[..i + 1][..i] == names[..i];
      r := r + [f(names[i])];
    }
    assert names[..|names|] == names;
  }

  /** `for (const token of geoTokens) if (corpus.includes(token)) rawEntities.push(...)`. */
  method PushGeoEntities(raw: seq<Entity>, tokens: seq<string>, corpus: string) returns (r: seq<Entity>)
    ensures r == raw + MapNames(PresentGeoTokens(tokens, corpus), PlaceEntity)
  {
    r := raw;
    for i := 0 to |tokens|
      invariant r == raw + MapNames(PresentGeoTokens(tokens[..i], corpus), PlaceEntity)
    {
      ghost var present := PresentGeoTokens(tokens[..i], corpus);
      assert tokens[..i + 1][..i] == tokens[..i];
      if Contains(corpus, tokens[i]) {
        assert PresentGeoTokens(tokens[..i + 1], corpus) == present + [tokens[i]];
        MapNamesSnoc(present, tokens[i], PlaceEntity);
        r := r + [PlaceEntity(tokens[i])];
      } else {
        assert PresentGeoTokens(tokens[..i + 1], corpus) == present;
      }
    }
    assert tokens[..|tokens|] == tokens;
  }

  lemma MapNamesSnoc(names: seq<string>, name: string, f: string -> Entity)
    ensures MapNames(names + [name], f) == MapNames(names, f) + [f(name)]
  {
    assert (names + [name])[..|names|] == names;
  }

  /** The pushes onto `rawEntities`, in source order. */
  method CollectEntities(hindi: seq<string>, english: seq<string>, tokens: seq<string>, corpus: string, input: SeoInput)
    returns (raw: seq<Entity>)
    ensures raw == RawEntities(hindi, english, tokens, corpus, input)
  {
    raw := PushEntities([], hindi, HindiEntity);
    assert raw == MapNames(hindi, HindiEntity);
    raw := PushEntities(raw, english, PersonEntity);
    raw := PushGeoEntities(raw, tokens, corpus);
    raw := PushInputEntities(raw, input);
  }

  /** The pushes for the category and the first eight tags. */
  method PushInputEntities(raw: seq<Entity>, input: SeoInput) returns (r: seq<Entity>)
    ensures r == raw + InputEntities(input)
  {
    r := raw;
    if input.categoryHindi != "" {
      r := r + [Entity(input.categoryHindi, Thing, 45)];
    }
    if input.category != "" {
      r := r + [Entity(input.category, Thing, 35)];
    }
    if input.tags.Some? {
      r := PushEntities(r, Slice(input.tags.value, 0, 8), TagEntity);
    }
  }

  /** `uniq(rawEntities).filter((e) => e.name.length >= 2).sort((a, b) => b.score - a.score)`. */
  function RankedEntities(raw: seq<Entity>): seq<Entity> {
    SortBy(Filter(FirstOccurrences(raw, (e: Entity) => e), (e: Entity) => |e.name| >= 2), (e: Entity) => -e.score)
  }

  /** `primaryEntity`: the top entity, a place turned into an organization when the corpus has an organization hint. */
  function PrimaryEntity(entities: seq<Entity>, orgHint: bool): (r: Option<Entity>)
    ensures r.None? <==> entities == []
    ensures r.Some? ==> r.value.name == entities[0].name
    ensures r.Some? && orgHint && entities[0].kind == Place ==>
              r.value.kind == Organization && r.value.score == (if entities[0].score + 15 < 100 then entities[0].score + 15 else 100)
    ensures r.Some? && !(orgHint && entities[0].kind == Place) ==> r.value == entities[0]
  {
    if entities == [] then None
    else
      var e := entities[0];
      if orgHint && e.kind == Place then Some(e.(kind := Organization, score := if e.score + 15 < 100 then e.score + 15 else 100))
      else Some(e)
  }

  /** `!primaryEntity || e.name !== primaryEntity.name`. */
  function NotNamedLike(primary: Option<Entity>): Entity -> bool {
    (e: Entity) => primary.None? || e.name != primary.value.name
  }

  /** The ranked entities `mentions` chooses from, in rank order. */
  function Others(entities: seq<Entity>, primary: Option<Entity>): seq<Entity> {
    Filter(entities, NotNamedLike(primary))
  }

  /** `mentions`: the first eight entities, in rank order, not named like the primary one. */
  function Mentions(entities: seq<Entity>, primary: Option<Entity>): (r: seq<Entity>)
    ensures |r| == (if |Others(entities, primary)| < 8 then |Others(entities, primary)| else 8)
    ensures r == Others(entities, primary)[..|r|]
    ensures forall k :: 0 <= k < |r| ==> r[k] in entities && (primary.Some? ==> r[k].name != primary.value.name)
  {
    var others := Others(entities, primary);
    var r := Slice(others, 0, 8);
    assert r == others[..|r|];
    assert forall k :: 0 <= k < |r| ==> r[k] == others[k];
    r
  }

  /** With eight or fewer candidates, every entity not named like the primary one is mentioned, in rank order. */
  lemma MentionsComplete(entities: seq<Entity>, primary: Option<Entity>)
    requires |Others(entities, primary)| <= 8
    ensures forall e :: e in entities && (primary.None? || e.name != primary.value.name) ==> e in Mentions(entities, primary)
    ensures IsSubsequence(Mentions(entities, primary), entities)
  {
    var others := Others(entities, primary);
    assert Mentions(entities, primary) == others;
    forall e | e in entities && (primary.None? || e.name != primary.value.name) ensures e in others {
      var i :| 0 <= i < |entities| && entities[i] == e;
      assert NotNamedLike(primary)(entities[i]);
    }
    FilterSubsequence(entities, NotNamedLike(primary));
  }

  /** The mentions keep the rank order: they are a subsequence of the ranked entities. */
  lemma MentionsOrdered(entities: seq<Entity>, primary: Option<Entity>)
    ensures IsSubsequence(Mentions(entities, primary), entities)
  {
    var others := Others(entities, primary);
    FilterSubsequence(entities, NotNamedLike(primary));
    PrefixSubsequence(others, |Mentions(entities, primary)|, entities);
  }

  /** The candidate keywords, in the order they are spread into `uniq`. */
  function KeywordCandidates(input: SeoInput, titleTokens: seq<string>, bodyTokens: seq<string>,
                             primary: Option<Entity>, mentions: seq<Entity>): seq<string> {
    (if input.categoryHindi != "" then [input.categoryHindi] else [])
    + (if input.category != "" then [input.category] else [])
    + Slice(titleTokens, 0, 12)
    + Slice(bodyTokens, 0, 20)
    + (if primary.Some? then [primary.value.name] else [])
    + seq(|mentions|, i requires 0 <= i < |mentions| => mentions[i].name)
    + ["Rampur News", Rampur + " \U{0928}\U{094D}\U{092F}\U{0942}\U{091C}\U{093C}"]
  }

  /** The candidates once `uniq`, `.map((k) => k.trim())` and `.filter(Boolean)` have run. */
  function CleanCandidates(candidates: seq<string>): (r: seq<string>)
    ensures forall k :: 0 <= k < |r| ==> r[k] != "" && IsTrimmed(r[k])
  {
    TrimmedPieces(FirstOccurrences(candidates, Lower));
    NonEmpty(TrimAll(FirstOccurrences(candidates, Lower)))
  }

  /** `keywords`: the first thirty of the cleaned candidates. */
  function Keywords(candidates: seq<string>): (r: seq<string>)
    ensures |r| == (if |CleanCandidates(candidates)| < 30 then |CleanCandidates(candidates)| else 30)
    ensures r == CleanCandidates(candidates)[..|r|]
    ensures forall k :: 0 <= k < |r| ==> r[k] != "" && IsTrimmed(r[k])
  {
    var cleaned := CleanCandidates(candidates);
    var r := Slice(cleaned, 0, 30);
    assert forall k :: 0 <= k < |r| ==> r[k] == cleaned[k];
    r
  }

  /** Every keyword is a candidate, trimmed, that is the first of the candidates with its lower-cased text. */
  lemma KeywordsFromFirstCandidates(candidates: seq<string>)
    ensures forall k :: 0 <= k < |Keywords(candidates)| ==>
              exists i :: 0 <= i < |candidates| && Keywords(candidates)[k] == Trim(candidates[i])
                          && Lower(candidates[i]) !in KeysOf(candidates[..i], Lower)
  {
    var r := Keywords(candidates);
    forall k | 0 <= k < |r|
      ensures exists i :: 0 <= i < |candidates| && r[k] == Trim(candidates[i]) && Lower(candidates[i]) !in KeysOf(candidates[..i], Lower)
    {
      KeywordFromFirstCandidate(candidates, r[k]);
    }
  }

  /** One keyword: it is the trim of a candidate that is the first with its lower-cased text. */
  lemma KeywordFromFirstCandidate(candidates: seq<string>, w: string)
    requires w in Keywords(candidates)
    ensures exists i :: 0 <= i < |candidates| && w == Trim(candidates[i]) && Lower(candidates[i]) !in KeysOf(candidates[..i], Lower)
  {
    var f := FirstOccurrences(candidates, Lower);
    FirstOccurrencesAreFirst(candidates, Lower);
    var cleaned := CleanCandidates(candidates);
    assert w in cleaned;
    assert w in TrimAll(f);
    var j :| 0 <= j < |f| && TrimAll(f)[j] == w;
    assert f[j] in candidates;
    var i :| 0 <= i < |candidates| && candidates[i] == f[j] && Lower(candidates[i]) !in KeysOf(candidates[..i], Lower);
  }

  /** With thirty or fewer cleaned candidates, every candidate that is the first with its lower-cased text and is not blank gives a keyword. */
  lemma KeywordsKeepFirstCandidates(candidates: seq<string>, i: nat)
    requires i < |candidates| && Lower(candidates[i]) !in KeysOf(candidates[..i], Lower) && Trim(candidates[i]) != ""
    requires |CleanCandidates(candidates)| <= 30
    ensures Trim(candidates[i]) in Keywords(candidates)
  {
    var f := FirstOccurrences(candidates, Lower);
    var cleaned := CleanCandidates(candidates);
    FirstOccurrencesIncludesFirst(candidates, Lower, i);
    var j :| 0 <= j < |f| && f[j] == candidates[i];
    var trimmed := TrimAll(f);
    assert trimmed[j] == Trim(candidates[i]);
    NonEmptyKeeps(trimmed, j);
    assert cleaned == NonEmpty(trimmed);
    var r := Keywords(candidates);
    assert |r| == |cleaned| && r == cleaned[..|cleaned|];
    assert cleaned[..|cleaned|] == cleaned;
  }

  /** An item no earlier item shares a key with is kept by `uniq`. */
  lemma {:induction false} FirstOccurrencesIncludesFirst<T, K>(s: seq<T>, key: T -> K, i: nat)
    requires i < |s| && key(s[i]) !in KeysOf(s[..i], key)
    ensures s[i] in FirstOccurrences(s, key)
  {
    var init := s[..|s| - 1];
    if i == |s| - 1 {
      assert s[..i] == init;
    } else {
      assert init[i] == s[i] && init[..i] == s[..i];
      FirstOccurrencesIncludesFirst(init, key, i);
    }
    assert FirstOccurrences(s, key) == FirstOccurrences(init, key) + (if key(s[|s| - 1]) in KeysOf(init, key) then [] else [s[|s| - 1]]);
  }

  /** `filter(Boolean)` keeps every non-empty piece. */
  lemma {:induction false} NonEmptyKeeps(pieces: seq<string>, j: nat)
    requires j < |pieces| && pieces[j] != ""
    ensures pieces[j] in NonEmpty(pieces)
  {
    if j > 0 {
      NonEmptyKeeps(pieces[1..], j - 1);
      assert pieces[1..][j - 1] == pieces[j];
    }
  }

  /** The non-empty trimmed pieces are non-empty and trimmed. */
  lemma TrimmedPieces(pieces: seq<string>)
    ensures forall k :: 0 <= k < |NonEmpty(TrimAll(pieces))| ==>
              NonEmpty(TrimAll(pieces))[k] != "" && IsTrimmed(NonEmpty(TrimAll(pieces))[k])
  {
    NonEmptyKeepsTrimmed(TrimAll(pieces));
  }

  lemma {:induction false} NonEmptyKeepsTrimmed(pieces: seq<string>)
    requires forall k :: 0 <= k < |pieces| ==> IsTrimmed(pieces[k])
    ensures forall k :: 0 <= k < |NonEmpty(pieces)| ==> IsTrimmed(NonEmpty(pieces)[k])
  {
    if pieces != [] {
      NonEmptyKeepsTrimmed(pieces[1..]);
      var head := if pieces[0] == "" then [] else [pieces[0]];
      assert NonEmpty(pieces) == head + NonEmpty(pieces[1..]);
    }
  }

  /** The regular-expression and markup helpers `deriveAiSeoSignals` calls, given as functions. */
  datatype TextOracles = TextOracles(
    stripHtml: string -> string,          // stripHtmlToText
    hindiPhrases: string -> seq<string>,  // extractHindiPhrases
    properNouns: string -> seq<string>,   // extractEnglishProperNouns
    isLetterOrNumber: char -> bool)       // \p{L} or \p{N}

  /** The signals modelled: the floating-point freshness, trending and geo scores are not. */
  datatype Signals = Signals(primary: Option<Entity>, mentions: seq<Entity>, keywords: seq<string>, readTimeMinutes: int, region: Region)

  function Body(input: SeoInput, o: TextOracles): string {
    o.stripHtml(if input.content != "" then input.content else input.excerpt)
  }

  function Corpus(input: SeoInput, o: TextOracles): string {
    Trim(input.title + " " + Body(input, o))
  }

  /** `deriveAiSeoSignals(input)`, with `toTokenKeywords` as written. */
  method DeriveAiSeoSignals(input: SeoInput, o: TextOracles) returns (s: Signals)
    ensures s.readTimeMinutes == ReadTimeMinutes(Corpus(input, o)) && s.readTimeMinutes >= 1
    ensures s.region == GeoRegion(Corpus(input, o), input.category)
    ensures var hindi := Slice(FirstOccurrences(o.hindiPhrases(input.title), Lower), 0, 8);
            var english := Slice(FirstOccurrences(o.properNouns(input.title), Lower), 0, 6);
            var ranked := RankedEntities(RawEntities(hindi, english, GeoTokens, Corpus(input, o), input));
            s.primary == PrimaryEntity(ranked, HasOrgHint(Corpus(input, o)))
            && s.mentions == Mentions(ranked, s.primary)
    ensures s.keywords == Keywords(KeywordCandidates(input,
              TokenKeywordsAsWritten(input.title, o.isLetterOrNumber),
              TokenKeywordsAsWritten(Body(input, o), o.isLetterOrNumber), s.primary, s.mentions))
    ensures |s.mentions| <= 8 && |s.keywords| <= 30
    ensures s.primary.Some? ==> forall k :: 0 <= k < |s.mentions| ==> s.mentions[k].name != s.primary.value.name
    ensures forall k :: 0 <= k < |s.keywords| ==> s.keywords[k] != ""
  {
    var corpus := Corpus(input, o);
    var phrases := Uniq(o.hindiPhrases(input.title), Lower);
    var nouns := Uniq(o.properNouns(input.title), Lower);
    var raw := CollectEntities(Slice(phrases, 0, 8), Slice(nouns, 0, 6), GeoTokens, corpus, input);
    var ranked := RankedEntities(raw);
    var primary := PrimaryEntity(ranked, HasOrgHint(corpus));
    var mentions := Mentions(ranked, primary);
    var candidates := KeywordCandidates(input,
      TokenKeywordsAsWritten(input.title, o.isLetterOrNumber),
      TokenKeywordsAsWritten(Body(input, o), o.isLetterOrNumber), primary, mentions);
    s := Signals(primary, mentions, Keywords(candidates), ReadTimeMinutes(corpus), GeoRegion(corpus, input.category));
  }
}
