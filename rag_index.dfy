/**
 * The text side of the retrieval index in tools/rag_index.py: whitespace
 * normalisation, the overlapping-window chunker, the query tokenizer, the
 * substring-count lexical score, and the filter/sort/truncate ranking tail
 * of `search_chunks`. Fetching, text extraction, embeddings and the upserts
 * are outside the model; a chunk's cosine similarity arrives as a number.
 */
module RagIndex {
  import opened Strings

  // ---------------------------------------------------------------- _normalize_text

  /** `s.replace("\r", " ")` (the `"\n"` replacement that follows is the identity). */
  function ReplaceCarriageReturns(s: string): (r: string)
    ensures |r| == |s|
    ensures forall i | 0 <= i < |s| :: r[i] == if s[i] == '\r' then ' ' else s[i]
  {
    seq(|s|, i requires 0 <= i < |s| => if s[i] == '\r' then ' ' else s[i])
  }

  /** The text after its leading whitespace. */
  function SkipSpace(s: string): (r: string)
    ensures |r| <= |s| && r == s[|s| - |r|..]
    ensures r == [] || !IsSpace(r[0])
    ensures forall i | 0 <= i < |s| - |r| :: IsSpace(s[i])
    decreases |s|
  {
    if s != [] && IsSpace(s[0]) then SkipSpace(s[1..]) else s
  }

  /** `re.sub(r"\s+", " ", s)`: every maximal run of whitespace becomes one space. */
  function Collapse(s: string): (r: string)
    ensures |r| <= |s|
    ensures r == [] <==> s == []
    ensures r != [] ==> (IsSpace(r[0]) <==> IsSpace(s[0]))
    ensures forall i | 0 <= i < |r| :: IsSpace(r[i]) ==> r[i] == ' '
    ensures forall i | 0 <= i < |r| - 1 :: !(IsSpace(r[i]) && IsSpace(r[i + 1]))
    decreases |s|
  {
    if s == [] then []
    else if IsSpace(s[0]) then
      var rest := Collapse(SkipSpace(s[1..]));
      [' '] + rest
    else
      var rest := Collapse(s[1..]);
      assert rest != [] ==> (IsSpace(rest[0]) <==> IsSpace(s[1]));
      [s[0]] + rest
  }

  /** `s.lstrip()`. */
  function TrimStart(s: string): (r: string)
    ensures r == SkipSpace(s)
  {
    SkipSpace(s)
  }

  /** `s.rstrip()`. */
  function TrimEnd(s: string): (r: string)
    ensures |r| <= |s| && r == s[..|r|]
    ensures r == [] || !IsSpace(r[|r| - 1])
    ensures forall i | |r| <= i < |s| :: IsSpace(s[i])
    decreases |s|
  {
    if s != [] && IsSpace(s[|s| - 1]) then TrimEnd(s[..|s| - 1]) else s
  }

  function NormalizeText(s: string): string {
    TrimEnd(TrimStart(Collapse(ReplaceCarriageReturns(s))))
  }

  /** Whitespace occurs only as plain spaces, never two in a row. */
  predicate SingleSpaced(t: string) {
    && (forall i | 0 <= i < |t| :: IsSpace(t[i]) ==> t[i] == ' ')
    && (forall i | 0 <= i < |t| - 1 :: !(IsSpace(t[i]) && IsSpace(t[i + 1])))
  }

  /** Normal form: single-spaced, with no whitespace at either end. */
  predicate Normalized(t: string) {
    && (t == [] || (!IsSpace(t[0]) && !IsSpace(t[|t| - 1])))
    && SingleSpaced(t)
  }

  lemma SingleSpacedSlice(t: string, lo: nat, hi: nat)
    requires lo <= hi <= |t| && SingleSpaced(t)
    ensures SingleSpaced(t[lo..hi])
  {
    var u := t[lo..hi];
    forall i | 0 <= i < |u|
      ensures IsSpace(u[i]) ==> u[i] == ' '
    {
      assert u[i] == t[lo + i];
    }
    forall i | 0 <= i < |u| - 1
      ensures !(IsSpace(u[i]) && IsSpace(u[i + 1]))
    {
      assert u[i] == t[lo + i] && u[i + 1] == t[lo + i + 1];
    }
  }

  /** `_normalize_text` always produces the normal form. */
  lemma NormalizeTextNormalized(s: string)
    ensures Normalized(NormalizeText(s))
  {
    var c := Collapse(ReplaceCarriageReturns(s));
    assert SingleSpaced(c);
    TrimBothNormalized(c);
  }

  /** Stripping both ends of single-spaced text leaves the normal form. */
  lemma TrimBothNormalized(c: string)
    requires SingleSpaced(c)
    ensures Normalized(TrimEnd(SkipSpace(c)))
  {
    var a := SkipSpace(c);
    SingleSpacedSlice(c, |c| - |a|, |c|);
    var b := TrimEnd(a);
    SingleSpacedSlice(a, 0, |b|);
    if b != [] {
      assert b[0] == a[0];
    }
  }

  lemma {:induction false} CollapseNormal(t: string)
    requires SingleSpaced(t)
    ensures Collapse(t) == t
    decreases |t|
  {
    if t != [] {
      var rest := t[1..];
      SingleSpacedSlice(t, 1, |t|);
      CollapseNormal(rest);
      HeadTail(t);
      if IsSpace(t[0]) {
        assert rest == [] || !IsSpace(rest[0]) by {
          if rest != [] {
            assert rest[0] == t[1];
          }
        }
        SkipSpaceStops(rest);
      }
    }
  }

  lemma HeadTail(t: string)
    requires t != []
    ensures t == [t[0]] + t[1..]
  {
  }

  lemma SkipSpaceStops(t: string)
    requires t == [] || !IsSpace(t[0])
    ensures SkipSpace(t) == t
  {
  }

  lemma NoCarriageReturns(t: string)
    requires SingleSpaced(t)
    ensures ReplaceCarriageReturns(t) == t
  {
    var r := ReplaceCarriageReturns(t);
    forall i | 0 <= i < |t|
      ensures r[i] == t[i]
    {
      if t[i] == '\r' {
        assert IsSpace(t[i]);
      }
    }
  }

  /** Text in normal form is a fixed point of `_normalize_text`. */
  lemma NormalizedFixed(t: string)
    requires Normalized(t)
    ensures NormalizeText(t) == t
  {
    NoCarriageReturns(t);
    CollapseNormal(t);
    assert SkipSpace(t) == t;
    assert TrimEnd(t) == t;
  }

  /** Normalising is idempotent. */
  lemma NormalizeTextIdempotent(s: string)
    ensures NormalizeText(NormalizeText(s)) == NormalizeText(s)
  {
    NormalizeTextNormalized(s);
    NormalizedFixed(NormalizeText(s));
  }

  // ---------------------------------------------------------------- _split_into_chunks

  function Min(a: int, b: int): int {
    if a <= b then a else b
  }

  function Max(a: int, b: int): int {
    if a >= b then a else b
  }

  /** The chunks the loop emits once `start` has been reached. */
  function ChunksFrom(text: string, start: nat, maxChars: int, overlap: int): seq<string>
    requires 0 < maxChars && overlap < maxChars
    decreases Max(0, |text| - start)
  {
    if start >= |text| then []
    else
      var end := Min(|text|, start + maxChars);
      [text[start..end]] + (if end == |text| then [] else ChunksFrom(text, Max(0, end - overlap), maxChars, overlap))
  }

  /** What `_split_into_chunks` returns. */
  function Chunks(text: string, maxChars: int, overlap: int): seq<string>
    requires 0 < maxChars && overlap < maxChars
  {
    if |text| <= maxChars then [text] else ChunksFrom(text, 0, maxChars, overlap)
  }

  /** The chunking loop; `overlap < max_chars` is what makes it terminate. */
  method SplitIntoChunks(text: string, maxChars: int := 2500, overlap: int := 200) returns (chunks: seq<string>)
    requires 0 < maxChars && overlap < maxChars
    ensures chunks == Chunks(text, maxChars, overlap)
  {
    if |text| <= maxChars {
      return [text];
    }
    chunks := [];
    var start := 0;
    while start < |text|
      invariant 0 <= start
      invariant chunks + ChunksFrom(text, start, maxChars, overlap) == ChunksFrom(text, 0, maxChars, overlap)
      decreases |text| - start
    {
      var end := Min(|text|, start + maxChars);
      chunks := chunks + [text[start..end]];
      if end == |text| {
        break;
      }
      start := Max(0, end - overlap);
    }
  }

  /** Where the chunking loop's `start` stands after `n` passes that did not reach the end. */
  function StartAfter(textLen: int, maxChars: int, overlap: int, n: nat): int {
    if n == 0 then 0
    else Max(0, Min(textLen, StartAfter(textLen, maxChars, overlap, n - 1) + maxChars) - overlap)
  }

  /**
   * Why `SplitIntoChunks` asks for `overlap < max_chars`: otherwise, on a
   * text longer than `max_chars`, every pass restarts at 0 and never
   * reaches the end of the text, so the loop does not terminate.
   */
  lemma {:induction false} ChunkLoopStalls(textLen: int, maxChars: int, overlap: int, n: nat)
    requires 0 < maxChars < textLen && maxChars <= overlap
    ensures StartAfter(textLen, maxChars, overlap, n) == 0
    ensures Min(textLen, StartAfter(textLen, maxChars, overlap, n) + maxChars) < textLen
  {
    if n > 0 {
      ChunkLoopStalls(textLen, maxChars, overlap, n - 1);
    }
  }

  /** Every chunk is non-empty and at most `max_chars` long, unless the text itself is empty. */
  lemma {:induction false} ChunksFromBounded(text: string, start: nat, maxChars: int, overlap: int)
    requires 0 < maxChars && overlap < maxChars
    ensures forall c | c in ChunksFrom(text, start, maxChars, overlap) :: 0 < |c| <= maxChars
    decreases Max(0, |text| - start)
  {
    var cs := ChunksFrom(text, start, maxChars, overlap);
    if start < |text| {
      var end := Min(|text|, start + maxChars);
      var head := text[start..end];
      assert 0 < |head| <= maxChars;
      if end < |text| {
        var next := Max(0, end - overlap);
        ChunksFromBounded(text, next, maxChars, overlap);
        var rest := ChunksFrom(text, next, maxChars, overlap);
        assert cs == [head] + rest;
        BoundedCons(head, rest, maxChars);
      } else {
        assert cs == [head] + [];
        BoundedCons(head, [], maxChars);
      }
    }
  }

  lemma BoundedCons(head: string, rest: seq<string>, maxChars: int)
    requires 0 < |head| <= maxChars && forall c | c in rest :: 0 < |c| <= maxChars
    ensures forall c | c in [head] + rest :: 0 < |c| <= maxChars
  {
  }

  lemma ChunksBounded(text: string, maxChars: int, overlap: int)
    requires 0 < maxChars && overlap < maxChars
    ensures |text| <= maxChars ==> Chunks(text, maxChars, overlap) == [text]
    ensures forall c | c in Chunks(text, maxChars, overlap) :: |c| <= maxChars
    ensures text != [] ==> forall c | c in Chunks(text, maxChars, overlap) :: c != []
  {
    ChunksFromBounded(text, 0, maxChars, overlap);
  }

  /** The chunks after the first, each without its leading `overlap` characters, concatenated. */
  function DropOverlaps(cs: seq<string>, overlap: nat): string
    decreases |cs|
  {
    if cs == [] then [] else cs[0][Min(overlap, |cs[0]|)..] + DropOverlaps(cs[1..], overlap)
  }

  lemma {:induction false} ChunksFromStitch(text: string, start: nat, maxChars: int, overlap: nat)
    requires overlap < maxChars && start < |text|
    ensures var cs := ChunksFrom(text, start, maxChars, overlap);
            cs != [] && cs[0] + DropOverlaps(cs[1..], overlap) == text[start..]
    decreases |text| - start
  {
    var cs := ChunksFrom(text, start, maxChars, overlap);
    var end := Min(|text|, start + maxChars);
    if end == |text| {
      assert text[start..end] == text[start..];
      assert cs == [text[start..end]];
      assert cs[1..] == [];
    } else {
      var next := end - overlap;
      var rest := ChunksFrom(text, next, maxChars, overlap);
      assert cs[1..] == rest;
      ChunksFromStitch(text, next, maxChars, overlap);
      var end' := Min(|text|, next + maxChars);
      assert rest[0] == text[next..end'];
      var tail := DropOverlaps(rest[1..], overlap);
      assert DropOverlaps(rest, overlap) == rest[0][overlap..] + tail;
      StitchStep(text, start, end, next, end', rest[0], tail);
    }
  }

  /** The slicing behind one step of `ChunksFromStitch`. */
  lemma StitchStep(text: string, start: nat, end: nat, next: nat, end': nat, head: string, tail: string)
    requires start <= end <= end' <= |text| && next <= end
    requires head == text[next..end'] && head + tail == text[next..]
    ensures head[end - next..] + tail == text[end..]
    ensures text[start..end] + text[end..] == text[start..]
  {
    assert text[next..] == text[next..end'] + text[end'..];
    assert tail == text[end'..];
    assert text[end..] == text[end..end'] + text[end'..];
  }

  /**
   * Stripping each later chunk of its `overlap` leading characters and
   * concatenating gives back the text: the chunks cover it, in order, from
   * its first character to its last.
   */
  lemma ChunksStitch(text: string, maxChars: int, overlap: nat)
    requires overlap < maxChars
    ensures var cs := Chunks(text, maxChars, overlap);
            cs != [] && cs[0] + DropOverlaps(cs[1..], overlap) == text
  {
    if |text| > maxChars {
      ChunksFromStitch(text, 0, maxChars, overlap);
    } else {
      assert Chunks(text, maxChars, overlap)[1..] == [];
    }
  }

  /** The last chunk ends at the end of the text. */
  lemma {:induction false} ChunksFromLast(text: string, start: nat, maxChars: int, overlap: nat)
    requires overlap < maxChars && start < |text|
    ensures var cs := ChunksFrom(text, start, maxChars, overlap);
            cs != [] && |cs[|cs| - 1]| <= |text| && cs[|cs| - 1] == text[|text| - |cs[|cs| - 1]|..]
    decreases |text| - start
  {
    var cs := ChunksFrom(text, start, maxChars, overlap);
    if start + maxChars < |text| {
      var next := ChunksFromStep(text, start, maxChars, overlap);
      ChunksFromLast(text, next, maxChars, overlap);
      var rest := ChunksFrom(text, next, maxChars, overlap);
      assert cs[|cs| - 1] == rest[|rest| - 1];
    } else {
      assert Min(|text|, start + maxChars) == |text|;
      assert cs == [text[start..|text|]];
    }
  }

  /** The first chunk starts the text and, for a non-negative overlap, the last one ends it. */
  lemma ChunksEnds(text: string, maxChars: int, overlap: nat)
    requires overlap < maxChars
    ensures var cs := Chunks(text, maxChars, overlap);
            && cs != []
            && |cs[0]| <= |text| && cs[0] == text[..|cs[0]|]
            && |cs[|cs| - 1]| <= |text| && cs[|cs| - 1] == text[|text| - |cs[|cs| - 1]|..]
  {
    if |text| > maxChars {
      ChunksFromLast(text, 0, maxChars, overlap);
    }
  }

  /** Each chunk after the first starts with the last `overlap` characters of the one before. */
  lemma {:induction false} ChunksFromOverlap(text: string, start: nat, maxChars: int, overlap: nat, k: nat)
    requires overlap < maxChars
    requires k + 1 < |ChunksFrom(text, start, maxChars, overlap)|
    ensures var cs := ChunksFrom(text, start, maxChars, overlap);
            overlap <= |cs[k]| && overlap <= |cs[k + 1]|
            && cs[k + 1][..overlap] == cs[k][|cs[k]| - overlap..]
    decreases |text| - start
  {
    assert start + maxChars < |text|;
    if k == 0 {
      ChunksFirstOverlap(text, start, maxChars, overlap);
    } else {
      var next := ChunksFromStep(text, start, maxChars, overlap);
      var cs := ChunksFrom(text, start, maxChars, overlap);
      var rest := ChunksFrom(text, next, maxChars, overlap);
      ChunksFromOverlap(text, next, maxChars, overlap, k - 1);
      assert cs[k] == rest[k - 1] && cs[k + 1] == rest[k];
    }
  }

  /** Before the last window, a chunk is a full window and the rest start `max_chars - overlap` further on. */
  lemma ChunksFromStep(text: string, start: nat, maxChars: int, overlap: nat) returns (next: nat)
    requires overlap < maxChars
    requires start + maxChars < |text|
    ensures next == start + maxChars - overlap && start < next < |text|
    ensures ChunksFrom(text, start, maxChars, overlap)
            == [text[start..start + maxChars]] + ChunksFrom(text, next, maxChars, overlap)
    ensures ChunksFrom(text, next, maxChars, overlap)[0] == text[next..Min(|text|, next + maxChars)]
  {
    next := start + maxChars - overlap;
  }

  /** The second chunk starts with the last `overlap` characters of the first. */
  lemma ChunksFirstOverlap(text: string, start: nat, maxChars: int, overlap: nat)
    requires overlap < maxChars && start + maxChars < |text|
    ensures var cs := ChunksFrom(text, start, maxChars, overlap);
            1 < |cs| && overlap <= |cs[0]| && overlap <= |cs[1]|
            && cs[1][..overlap] == cs[0][|cs[0]| - overlap..]
  {
    var next := ChunksFromStep(text, start, maxChars, overlap);
    var cs := ChunksFrom(text, start, maxChars, overlap);
    var a := text[start..start + maxChars];
    var b := text[next..Min(|text|, next + maxChars)];
    assert cs[0] == a && cs[1] == b;
    SliceOfSlice(text, next, Min(|text|, next + maxChars), 0, overlap);
    SliceOfSlice(text, start, start + maxChars, maxChars - overlap, maxChars);
  }

  lemma SliceOfSlice(text: string, i: nat, j: nat, k: nat, l: nat)
    requires i <= j <= |text| && k <= l <= j - i
    ensures text[i..j][k..l] == text[i + k..i + l]
  {
    var x, y := text[i..j][k..l], text[i + k..i + l];
    forall t | 0 <= t < |x|
      ensures x[t] == y[t]
    {
      assert x[t] == text[i + k + t];
    }
  }

  // ---------------------------------------------------------------- _tokenize

  /** The characters the tokenizer keeps besides whitespace: `[a-z0-9áéíóúüñ]`. */
  predicate TokenChar(c: char) {
    ('a' <= c <= 'z') || ('0' <= c <= '9') || c in "áéíóúüñ"
  }

  /** `re.sub(r"[^a-z0-9áéíóúüñ\s]", " ", q)`. */
  function Sanitize(s: string): (r: string)
    ensures |r| == |s|
    ensures forall i | 0 <= i < |s| :: r[i] == if TokenChar(s[i]) || IsSpace(s[i]) then s[i] else ' '
  {
    seq(|s|, i requires 0 <= i < |s| => if TokenChar(s[i]) || IsSpace(s[i]) then s[i] else ' ')
  }

  /** The leading run of non-whitespace characters. */
  function TakeWord(s: string): (w: string)
    ensures |w| <= |s| && w == s[..|w|]
    ensures forall i | 0 <= i < |w| :: !IsSpace(w[i])
    ensures |w| == |s| || IsSpace(s[|w|])
    decreases |s|
  {
    if s == [] || IsSpace(s[0]) then [] else [s[0]] + TakeWord(s[1..])
  }

  /** `w` is a non-empty run of non-whitespace characters, all taken from `s`. */
  predicate WordOf(s: string, w: string) {
    w != [] && forall i | 0 <= i < |w| :: !IsSpace(w[i]) && w[i] in s
  }

  /** `s.split()`: the maximal runs of non-whitespace characters, in order. */
  function Words(s: string): (ws: seq<string>)
    ensures forall k | 0 <= k < |ws| :: WordOf(s, ws[k])
    decreases |s|
  {
    var t := SkipSpace(s);
    if t == [] then []
    else
      var w := TakeWord(t);
      var rest := Words(t[|w|..]);
      WordsStep(s, t, w, rest);
      [w] + rest
  }

  /** The first word and the later ones are words of `s`. */
  lemma WordsStep(s: string, t: string, w: string, rest: seq<string>)
    requires |t| <= |s| && t == s[|s| - |t|..]
    requires |w| <= |t| && w == t[..|w|] && w != []
    requires forall i | 0 <= i < |w| :: !IsSpace(w[i])
    requires forall k | 0 <= k < |rest| :: WordOf(t[|w|..], rest[k])
    ensures forall k | 0 <= k < |[w] + rest| :: WordOf(s, ([w] + rest)[k])
  {
    forall c | c in t
      ensures c in s
    {
      var j :| 0 <= j < |t| && t[j] == c;
      assert s[|s| - |t| + j] == c;
    }
    assert WordOf(s, w) by {
      forall i | 0 <= i < |w|
        ensures w[i] in s
      {
        assert w[i] == t[i];
      }
    }
    forall k | 0 <= k < |rest|
      ensures WordOf(s, rest[k])
    {
      forall i | 0 <= i < |rest[k]|
        ensures rest[k][i] in s
      {
        var c := rest[k][i];
        assert c in t[|w|..];
        var j :| 0 <= j < |t[|w|..]| && t[|w|..][j] == c;
        assert t[|w| + j] == c;
      }
    }
    forall k | 0 <= k < |[w] + rest|
      ensures WordOf(s, ([w] + rest)[k])
    {
      if k > 0 {
        assert ([w] + rest)[k] == rest[k - 1];
      }
    }
  }

  /** The words of at least two characters. */
  function LongWords(ws: seq<string>): (r: seq<string>)
    ensures forall k | 0 <= k < |r| :: |r[k]| > 1 && r[k] in ws
    ensures forall k | 0 <= k < |ws| && |ws[k]| > 1 :: ws[k] in r
    ensures forall w :: w in r <==> w in ws && |w| > 1
    decreases |ws|
  {
    if ws == [] then []
    else if |ws[0]| > 1 then [ws[0]] + LongWords(ws[1..])
    else LongWords(ws[1..])
  }

  /**
   * `_tokenize`: lower-case the query, blank out everything but letters,
   * digits, the Spanish accented vowels, ñ and whitespace, split on
   * whitespace and keep the words longer than one character.
   */
  function Tokenize(q: string): (toks: seq<string>)
    ensures forall k | 0 <= k < |toks| :: |toks[k]| > 1
    ensures forall k, i | 0 <= k < |toks| && 0 <= i < |toks[k]| :: TokenChar(toks[k][i])
    ensures forall w :: w in toks <==> w in Words(Sanitize(LowerStr(q))) && |w| > 1
  {
    var sanitized := Sanitize(LowerStr(q));
    var words := Words(sanitized);
    var toks := LongWords(words);
    SanitizedWords(sanitized, words, toks);
    toks
  }

  /** Words of sanitized text, and any selection of them, consist of token characters. */
  lemma SanitizedWords(sanitized: string, words: seq<string>, toks: seq<string>)
    requires forall i | 0 <= i < |sanitized| :: TokenChar(sanitized[i]) || IsSpace(sanitized[i])
    requires forall k | 0 <= k < |words| :: WordOf(sanitized, words[k])
    requires forall k | 0 <= k < |toks| :: toks[k] in words
    ensures forall k, i | 0 <= k < |toks| && 0 <= i < |toks[k]| :: TokenChar(toks[k][i])
  {
    forall k, i | 0 <= k < |toks| && 0 <= i < |toks[k]|
      ensures TokenChar(toks[k][i])
    {
      var j :| 0 <= j < |words| && words[j] == toks[k];
      var c := toks[k][i];
      assert WordOf(sanitized, words[j]);
      assert !IsSpace(words[j][i]) && words[j][i] in sanitized;
      var m :| 0 <= m < |sanitized| && sanitized[m] == c;
    }
  }

  // ---------------------------------------------------------------- whitespace runs

  /** Every character is whitespace (vacuously so for the empty string). */
  predicate AllSpace(s: string) {
    forall i | 0 <= i < |s| :: IsSpace(s[i])
  }

  /** A non-empty run of non-whitespace characters. */
  predicate Word(w: string) {
    w != [] && forall i | 0 <= i < |w| :: !IsSpace(w[i])
  }

  /** `q` is where a word ends: nothing, or whitespace next. */
  predicate WordBoundary(q: string) {
    q == [] || IsSpace(q[0])
  }

  lemma {:induction false} SkipSpaceAppend(p: string, x: string)
    requires AllSpace(p) && (x == [] || !IsSpace(x[0]))
    ensures SkipSpace(p + x) == x
    decreases |p|
  {
    if p != [] {
      assert (p + x)[1..] == p[1..] + x;
      SkipSpaceAppend(p[1..], x);
    } else {
      assert p + x == x;
    }
  }

  lemma {:induction false} TakeWordAppend(w: string, q: string)
    requires Word(w) && WordBoundary(q)
    ensures TakeWord(w + q) == w
    decreases |w|
  {
    assert (w + q)[1..] == w[1..] + q;
    if |w| > 1 {
      TakeWordAppend(w[1..], q);
      assert w == [w[0]] + w[1..];
    } else {
      assert w[1..] + q == q;
    }
  }

  /** A string with a word splits into leading whitespace, its first word, and the rest. */
  lemma Decompose(s: string) returns (p: string, w: string, q: string)
    requires !AllSpace(s)
    ensures s == p + w + q && AllSpace(p) && Word(w) && WordBoundary(q)
    ensures |q| < |s|
  {
    var t;
    p, t := SplitSpace(s);
    w, q := SplitWord(t);
    Associative(p, w, q);
  }

  /** The leading whitespace of `s`, and what `SkipSpace` leaves. */
  lemma SplitSpace(s: string) returns (p: string, t: string)
    requires !AllSpace(s)
    ensures s == p + t && AllSpace(p) && t != [] && !IsSpace(t[0])
  {
    t := SkipSpace(s);
    p := s[..|s| - |t|];
    assert AllSpace(p) by {
      forall i | 0 <= i < |p|
        ensures IsSpace(p[i])
      {
        assert p[i] == s[i];
      }
    }
    var j :| 0 <= j < |s| && !IsSpace(s[j]);
    assert j >= |s| - |t|;
    SplitAt(s, |s| - |t|);
  }

  /** The first word of a string that starts with one, and what follows it. */
  lemma SplitWord(t: string) returns (w: string, q: string)
    requires t != [] && !IsSpace(t[0])
    ensures t == w + q && Word(w) && WordBoundary(q)
  {
    w := TakeWord(t);
    assert w[0] == t[0];
    q := t[|w|..];
    SplitAt(t, |w|);
  }

  lemma SplitAt(s: string, k: nat)
    requires k <= |s|
    ensures s == s[..k] + s[k..]
  {
  }

  lemma Associative(a: string, b: string, c: string)
    ensures a + (b + c) == a + b + c
  {
  }

  lemma DropFirst(a: string, b: string)
    requires a != []
    ensures (a + b)[0] == a[0] && (a + b)[1..] == a[1..] + b
  {
  }

  lemma EmptyLeft(a: string)
    ensures [] + a == a
  {
  }

  /** A string with a non-whitespace character has a word. */
  lemma WordsNonEmpty(s: string)
    requires !AllSpace(s)
    ensures Words(s) != []
  {
    var p, w, q := Decompose(s);
    WordsCons(p, w, q);
  }

  /** Whitespace alone holds no word. */
  lemma WordsBlank(s: string)
    requires AllSpace(s)
    ensures Words(s) == []
  {
  }

  /**
   * `split()` takes the first maximal run of non-whitespace as its first
   * word, and the rest of the words come from what follows. With
   * `WordsBlank` this determines `Words` on every string.
   */
  lemma WordsCons(p: string, w: string, q: string)
    requires AllSpace(p) && Word(w) && WordBoundary(q)
    ensures Words(p + w + q) == [w] + Words(q)
  {
    var s := p + w + q;
    assert s == p + (w + q);
    SkipSpaceAppend(p, w + q);
    TakeWordAppend(w, q);
    assert (w + q)[|w|..] == q;
  }

  lemma {:induction false} CollapseWord(w: string, q: string)
    requires Word(w)
    ensures Collapse(w + q) == w + Collapse(q)
    decreases |w|
  {
    assert (w + q)[1..] == w[1..] + q;
    if |w| > 1 {
      CollapseWord(w[1..], q);
      assert w == [w[0]] + w[1..];
    } else {
      assert w[1..] + q == q;
    }
  }

  /** `re.sub(r"\s+", " ", s)` on whitespace alone: one space, or nothing. */
  lemma CollapseBlank(s: string)
    requires AllSpace(s)
    ensures Collapse(s) == if s == [] then [] else " "
  {
  }

  /**
   * `re.sub(r"\s+", " ", s)` turns the leading whitespace into one space (or
   * nothing), keeps the first word as it is, and goes on with the rest.
   * With `CollapseBlank` this determines `Collapse` on every string.
   */
  lemma CollapseCons(p: string, w: string, q: string)
    requires AllSpace(p) && Word(w) && WordBoundary(q)
    ensures Collapse(p + w + q) == (if p == [] then [] else " ") + w + Collapse(q)
  {
    CollapseWord(w, q);
    Associative(p, w, q);
    var c := Collapse(q);
    if p != [] {
      DropFirst(p, w + q);
      assert IsSpace(p[0]);
      SkipSpaceAppend(p[1..], w + q);
      assert Collapse(p + (w + q)) == [' '] + Collapse(w + q);
      Associative(" ", w, c);
    } else {
      EmptyLeft(w + q);
      EmptyLeft(w);
    }
  }

  lemma {:induction false} TrimEndBlank(a: string, b: string)
    requires AllSpace(b)
    ensures TrimEnd(a + b) == TrimEnd(a)
    decreases |b|
  {
    if b != [] {
      var b' := b[..|b| - 1];
      assert (a + b)[..|a + b| - 1] == a + b';
      TrimEndBlank(a, b');
    } else {
      assert a + b == a;
    }
  }

  lemma {:induction false} TrimEndAppend(a: string, b: string)
    requires TrimEnd(b) != []
    ensures TrimEnd(a + b) == a + TrimEnd(b)
    decreases |b|
  {
    var b' := b[..|b| - 1];
    assert (a + b)[..|a + b| - 1] == a + b';
    if IsSpace(b[|b| - 1]) {
      TrimEndAppend(a, b');
    }
  }

  /** What is left of a blank string after collapsing and stripping: nothing. */
  lemma CollapseTrimBlank(x: string)
    requires AllSpace(x)
    ensures TrimEnd(SkipSpace(Collapse(x))) == []
  {
    CollapseBlank(x);
  }

  /** Collapsing and stripping up to the first word. */
  lemma CollapseTrimLead(p: string, w: string, q: string)
    requires AllSpace(p) && Word(w) && WordBoundary(q)
    ensures TrimEnd(SkipSpace(Collapse(p + w + q))) == TrimEnd(w + Collapse(q))
  {
    CollapseCons(p, w, q);
    var c := Collapse(q);
    var P: string := if p == [] then [] else " ";
    assert AllSpace(P);
    DropFirst(w, c);
    SkipSpaceAppend(P, w + c);
    Associative(P, w, c);
  }

  /** A word followed by whitespace only: stripping leaves the word. */
  lemma CollapseTrimLast(w: string, q: string)
    requires Word(w) && AllSpace(q)
    ensures TrimEnd(w + Collapse(q)) == w
  {
    CollapseBlank(q);
    TrimEndBlank(w, Collapse(q));
  }

  /** A word followed by more words: one space, then the rest collapsed and stripped. */
  lemma CollapseTrimNext(w: string, q: string) returns (q': string)
    requires Word(w) && WordBoundary(q) && !AllSpace(q)
    ensures |q'| < |q| && Words(q') == Words(q) && q' != [] && !IsSpace(q'[0])
    ensures TrimEnd(SkipSpace(Collapse(q'))) != []
    ensures TrimEnd(w + Collapse(q)) == w + " " + TrimEnd(SkipSpace(Collapse(q')))
  {
    q' := SkipSpace(q[1..]);
    var j :| 0 <= j < |q| && !IsSpace(q[j]);
    assert j >= 1 && j - 1 >= |q| - 1 - |q'|;
    assert SkipSpace(q) == q';
    assert SkipSpace(q') == q';
    var c := Collapse(q');
    assert Collapse(q) == " " + c;
    assert c != [] && !IsSpace(c[0]);
    assert SkipSpace(c) == c;
    assert TrimEnd(c) != [];
    TrimEndAppend(w + " ", c);
    Associative(w, " ", c);
  }

  /** Collapsing, then stripping, gives the words joined by single spaces. */
  lemma {:induction false} CollapseTrimJoins(x: string)
    ensures TrimEnd(SkipSpace(Collapse(x))) == Join(Words(x), ' ')
    decreases |x|
  {
    if AllSpace(x) {
      CollapseTrimBlank(x);
      WordsBlank(x);
    } else {
      var p, w, q := Decompose(x);
      WordsCons(p, w, q);
      CollapseTrimLead(p, w, q);
      if AllSpace(q) {
        WordsBlank(q);
        CollapseTrimLast(w, q);
      } else {
        var q' := CollapseTrimNext(w, q);
        CollapseTrimJoins(q');
        var ws := Words(q);
        WordsNonEmpty(q);
        assert Join([w] + ws, ' ') == w + [' '] + Join(ws, ' ');
      }
    }
  }

  lemma ReplaceAppend(a: string, b: string)
    ensures ReplaceCarriageReturns(a + b) == ReplaceCarriageReturns(a) + ReplaceCarriageReturns(b)
  {
    assert ReplaceCarriageReturns(a + b)[..|a|] == ReplaceCarriageReturns(a);
    assert ReplaceCarriageReturns(a + b)[|a|..] == ReplaceCarriageReturns(b);
  }

  /** The replacement keeps whitespace whitespace and leaves words alone. */
  lemma ReplaceParts(p: string, w: string, q: string)
    requires AllSpace(p) && Word(w) && WordBoundary(q)
    ensures ReplaceCarriageReturns(p + w + q)
            == ReplaceCarriageReturns(p) + w + ReplaceCarriageReturns(q)
    ensures AllSpace(ReplaceCarriageReturns(p)) && WordBoundary(ReplaceCarriageReturns(q))
  {
    ReplaceAppend(p + w, q);
    ReplaceAppend(p, w);
    assert ReplaceCarriageReturns(w) == w by {
      forall i | 0 <= i < |w|
        ensures w[i] != '\r'
      {
        assert !IsSpace(w[i]);
      }
    }
  }

  /** Turning `\r` into a space changes no word. */
  lemma {:induction false} WordsIgnoreCarriageReturns(s: string)
    ensures Words(ReplaceCarriageReturns(s)) == Words(s)
    decreases |s|
  {
    var r := ReplaceCarriageReturns(s);
    if AllSpace(s) {
      WordsBlank(s);
      assert AllSpace(r);
      WordsBlank(r);
    } else {
      var p, w, q := Decompose(s);
      WordsCons(p, w, q);
      ReplaceParts(p, w, q);
      WordsCons(ReplaceCarriageReturns(p), w, ReplaceCarriageReturns(q));
      WordsIgnoreCarriageReturns(q);
    }
  }

  /** `_normalize_text(s)` is `" ".join(s.split())`. */
  lemma NormalizeTextJoinsWords(s: string)
    ensures NormalizeText(s) == Join(Words(s), ' ')
  {
    CollapseTrimJoins(ReplaceCarriageReturns(s));
    WordsIgnoreCarriageReturns(s);
  }

  // ---------------------------------------------------------------- _score_lexical

  /** How many of `tokens`, counted with multiplicity, occur in `t`. */
  function CountContained(tokens: seq<string>, t: string): (n: nat)
    ensures n <= |tokens|
    ensures n == |tokens| <==> forall k | 0 <= k < |tokens| :: Contains(t, tokens[k])
    ensures n == 0 <==> forall k | 0 <= k < |tokens| :: !Contains(t, tokens[k])
    decreases |tokens|
  {
    if tokens == [] then 0
    else
      var last := tokens[|tokens| - 1];
      CountContained(tokens[..|tokens| - 1], t) + (if Contains(t, last) then 1 else 0)
  }

  /** `_score_lexical`: one point per query token found in the lower-cased text. */
  method ScoreLexical(text: string, tokens: seq<string>) returns (score: real)
    ensures score == CountContained(tokens, LowerStr(text)) as real
  {
    var t := LowerStr(text);
    score := 0.0;
    for k := 0 to |tokens|
      invariant score == CountContained(tokens[..k], t) as real
    {
      assert tokens[..k + 1][..k] == tokens[..k];
      if Contains(t, tokens[k]) {
        score := score + 1.0;
      }
    }
    assert tokens[..|tokens|] == tokens;
  }

  // ---------------------------------------------------------------- search_chunks (ranking tail)

  /**
   * A fetched `rag_chunks` row; `similarity` is the cosine similarity of its
   * embedding with the query's, or 0 when either vector is missing.
   */
  datatype ChunkRow = ChunkRow(
    documentGroup: string, documentSubgroup: string, documentName: string,
    chunkIndex: int, text: string, similarity: real)

  datatype Hit = Hit(row: ChunkRow, score: real)

  /** `0.7 * vec + 0.3 * (lex / (len(toks) or 1))`. */
  function HitScore(row: ChunkRow, toks: seq<string>): real {
    var lex := CountContained(toks, LowerStr(row.text)) as real;
    var n := if |toks| == 0 then 1 else |toks|;
    0.7 * row.similarity + 0.3 * (lex / n as real)
  }

  /** The rows with a positive score, in fetch order, each with its score. */
  function Scored(rows: seq<ChunkRow>, toks: seq<string>): (hits: seq<Hit>)
    ensures |hits| <= |rows|
    ensures forall k | 0 <= k < |hits| :: hits[k].score > 0.0 && hits[k].row in rows
                                         && hits[k].score == HitScore(hits[k].row, toks)
    ensures forall r | r in rows && HitScore(r, toks) > 0.0 :: Hit(r, HitScore(r, toks)) in hits
    decreases |rows|
  {
    if rows == [] then []
    else
      var init := Scored(rows[..|rows| - 1], toks);
      var last := rows[|rows| - 1];
      assert forall r | r in rows :: r in rows[..|rows| - 1] || r == last;
      var score := HitScore(last, toks);
      if score > 0.0 then init + [Hit(last, score)] else init
  }

  lemma ScoredStep(rows: seq<ChunkRow>, toks: seq<string>)
    requires rows != []
    ensures var last := rows[|rows| - 1];
            Scored(rows, toks) == Scored(rows[..|rows| - 1], toks)
                                  + (if HitScore(last, toks) > 0.0 then [Hit(last, HitScore(last, toks))] else [])
  {
  }

  lemma WholePrefix(rows: seq<ChunkRow>)
    ensures rows[..|rows|] == rows
  {
  }

  /** `ScoredStep` on the prefix `rows[..k + 1]`. */
  lemma ScoredPrefix(rows: seq<ChunkRow>, k: nat, toks: seq<string>)
    requires k < |rows|
    ensures HitScore(rows[k], toks) > 0.0 ==>
              Scored(rows[..k + 1], toks) == Scored(rows[..k], toks) + [Hit(rows[k], HitScore(rows[k], toks))]
    ensures HitScore(rows[k], toks) <= 0.0 ==> Scored(rows[..k + 1], toks) == Scored(rows[..k], toks)
  {
    assert rows[..k + 1][..k] == rows[..k];
    ScoredStep(rows[..k + 1], toks);
  }

  predicate NonIncreasing(hits: seq<Hit>) {
    forall i, j | 0 <= i < j < |hits| :: hits[i].score >= hits[j].score
  }

  /** Places `h` before the first hit that does not score higher, so equal scores keep their order. */
  function Insert(h: Hit, sorted: seq<Hit>): (r: seq<Hit>)
    requires NonIncreasing(sorted)
    ensures NonIncreasing(r)
    ensures multiset(r) == multiset(sorted) + multiset{h}
    decreases |sorted|
  {
    if sorted == [] || sorted[0].score <= h.score then [h] + sorted
    else
      var rest := Insert(h, sorted[1..]);
      InsertBelow(h, sorted, rest);
      assert sorted == [sorted[0]] + sorted[1..];
      [sorted[0]] + rest
  }

  /** The step of `Insert` past a head that scores higher than `h`. */
  lemma InsertBelow(h: Hit, sorted: seq<Hit>, rest: seq<Hit>)
    requires NonIncreasing(sorted) && NonIncreasing(rest)
    requires sorted != [] && sorted[0].score > h.score
    requires multiset(rest) == multiset(sorted[1..]) + multiset{h}
    ensures NonIncreasing([sorted[0]] + rest)
  {
    forall x | x in rest
      ensures x.score <= sorted[0].score
    {
      assert x in multiset(rest);
      if x != h {
        assert x in multiset(sorted[1..]);
        var j :| 0 <= j < |sorted[1..]| && sorted[1..][j] == x;
        assert sorted[j + 1] == x;
      }
    }
    var r := [sorted[0]] + rest;
    forall i, j | 0 <= i < j < |r|
      ensures r[i].score >= r[j].score
    {
      if i == 0 {
        assert r[j] == rest[j - 1];
        assert r[j] in rest;
      } else {
        assert r[i] == rest[i - 1] && r[j] == rest[j - 1];
      }
    }
  }

  /** `scored.sort(key=score, reverse=True)`: a stable sort by non-increasing score. */
  function SortByScore(hits: seq<Hit>): (r: seq<Hit>)
    ensures NonIncreasing(r)
    ensures multiset(r) == multiset(hits)
    decreases |hits|
  {
    if hits == [] then []
    else
      assert hits == [hits[0]] + hits[1..];
      Insert(hits[0], SortByScore(hits[1..]))
  }

  /** Python's `xs[:limit]`, including a negative `limit`, which drops that many from the end. */
  function PyTake<T>(xs: seq<T>, limit: int): (r: seq<T>)
    ensures |r| <= |xs| && r == xs[..|r|]
    ensures 0 <= limit ==> |r| == Min(limit, |xs|)
    ensures limit < 0 ==> |r| == Max(0, |xs| + limit)
  {
    if 0 <= limit then
      (if limit <= |xs| then xs[..limit] else xs)
    else
      (if 0 <= |xs| + limit then xs[..|xs| + limit] else [])
  }

  /** What `search_chunks` returns for the fetched rows. */
  function Ranked(rows: seq<ChunkRow>, query: string, limit: int): seq<Hit> {
    PyTake(SortByScore(Scored(rows, Tokenize(query))), limit)
  }

  /** The scoring loop, the sort and the slice of `search_chunks`, after the fetch. */
  method SearchChunks(rows: seq<ChunkRow>, query: string, limit: int := 30) returns (result: seq<Hit>)
    ensures result == Ranked(rows, query, limit)
  {
    if rows == [] {
      return [];
    }
    var toks := Tokenize(query);
    var scored: seq<Hit> := [];
    for k := 0 to |rows|
      invariant scored == Scored(rows[..k], toks)
    {
      var lex := ScoreLexical(rows[k].text, toks);
      var n := if |toks| == 0 then 1 else |toks|;
      var score := 0.7 * rows[k].similarity + 0.3 * (lex / n as real);
      assert score == HitScore(rows[k], toks);
      ScoredPrefix(rows, k, toks);
      if score > 0.0 {
        scored := scored + [Hit(rows[k], score)];
      }
    }
    WholePrefix(rows);
    result := PyTake(SortByScore(scored), limit);
  }

  /**
   * The ranking promises: at most `limit` hits for a non-negative limit,
   * every hit scores above zero and carries its own row's score, and the
   * hits come by non-increasing score.
   */
  lemma RankedProperties(rows: seq<ChunkRow>, query: string, limit: int)
    ensures var r := Ranked(rows, query, limit);
            && (0 <= limit ==> |r| <= limit)
            && (forall k | 0 <= k < |r| :: r[k].score > 0.0 && r[k].row in rows
                                          && r[k].score == HitScore(r[k].row, Tokenize(query)))
            && NonIncreasing(r)
  {
    var toks := Tokenize(query);
    var scored := Scored(rows, toks);
    var r := Ranked(rows, query, limit);
    TakeSorted(scored, limit);
    forall k | 0 <= k < |r|
      ensures r[k].score > 0.0 && r[k].row in rows && r[k].score == HitScore(r[k].row, toks)
    {
      ScoredMember(rows, toks, r[k]);
    }
  }

  /** A hit among the scored ones scores above zero and carries its own row's score. */
  lemma ScoredMember(rows: seq<ChunkRow>, toks: seq<string>, h: Hit)
    requires h in Scored(rows, toks)
    ensures h.score > 0.0 && h.row in rows && h.score == HitScore(h.row, toks)
  {
    var hits := Scored(rows, toks);
    var j :| 0 <= j < |hits| && hits[j] == h;
  }

  /** A slice of the sorted hits is still sorted and holds only hits that were given. */
  lemma TakeSorted(hits: seq<Hit>, limit: int)
    ensures var r := PyTake(SortByScore(hits), limit);
            NonIncreasing(r) && forall k | 0 <= k < |r| :: r[k] in hits
  {
    var sorted := SortByScore(hits);
    var r := PyTake(sorted, limit);
    forall k | 0 <= k < |r|
      ensures r[k] in hits
    {
      assert r[k] == sorted[k];
      assert sorted[k] in multiset(sorted);
    }
  }

  /** With a limit at least the number of fetched rows, every positive-scoring row is returned. */
  lemma RankedComplete(rows: seq<ChunkRow>, query: string, limit: int, row: ChunkRow)
    requires row in rows && |rows| <= limit
    ensures HitScore(row, Tokenize(query)) > 0.0 ==> Hit(row, HitScore(row, Tokenize(query))) in Ranked(rows, query, limit)
  {
    var toks := Tokenize(query);
    var scored := Scored(rows, toks);
    var sorted := SortByScore(scored);
    assert |sorted| == |scored| by {
      assert |multiset(sorted)| == |multiset(scored)|;
    }
    assert Ranked(rows, query, limit) == sorted;
    if HitScore(row, toks) > 0.0 {
      assert Hit(row, HitScore(row, toks)) in multiset(scored);
    }
  }
}
