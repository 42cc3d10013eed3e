/** The LuxTTS streaming provider: the text is split at sentence (or phrase)
    ends, the fragments are merged into chunks of at least 40 characters, and
    each chunk is synthesised on its own so that the first audio arrives
    early. The synthesis model is a parameter (`synth`); what is modelled is
    the chunking, the language guard and the measured result. */
module LuxTtsStreaming {
  import opened Wrappers
  import opened Text
  import opened Base

  /** `MIN_CHUNK_SIZE`: fewer characters give unstable audio. */
  const MinChunkSize: nat := 40

  const SentenceEnds: set<char> := {'.', '!', '?'}
  const PhraseEnds: set<char> := {',', ';', '.', '!', '?'}

  /** The characters after which the split pattern may cut: phrase mode adds
      commas and semicolons; every other mode splits at sentence ends. */
  function Delimiters(mode: string): (d: set<char>)
    ensures SentenceEnds <= d
  {
    if mode == "phrase" then PhraseEnds else SentenceEnds
  }

  /** `re.split(r'(?<=[<d>])\s+', s)`, reading `s` left to right with `cur`
      the part read so far: a maximal run of whitespace that follows a
      delimiter ends the current part and is dropped. */
  function SplitFrom(s: string, d: set<char>, cur: string): (parts: seq<string>)
    ensures |parts| >= 1
    decreases |s|
  {
    if s == [] then [cur]
    else if cur != [] && cur[|cur| - 1] in d && IsSpace(s[0]) then [cur] + SplitFrom(LStrip(s), d, "")
    else SplitFrom(s[1..], d, cur + [s[0]])
  }

  function SplitParts(s: string, d: set<char>): seq<string> {
    SplitFrom(s, d, "")
  }

  /** `s` has no delimiter directly followed by whitespace: no split point. */
  predicate NoSplitPoint(s: string, d: set<char>) {
    forall j :: 0 <= j < |s| - 1 ==> !(s[j] in d && IsSpace(s[j + 1]))
  }

  /** Every part but the last ends with a delimiter: the whitespace after it
      was the cut. */
  predicate CutAfterDelimiters(parts: seq<string>, d: set<char>) {
    forall k :: 0 <= k < |parts| - 1 ==> parts[k] != [] && parts[k][|parts[k]| - 1] in d
  }

  /** No part still holds a delimiter followed by whitespace. */
  predicate NoPartSplits(parts: seq<string>, d: set<char>) {
    forall k :: 0 <= k < |parts| ==> NoSplitPoint(parts[k], d)
  }

  lemma {:induction false} SplitFromCuts(s: string, d: set<char>, cur: string)
    ensures CutAfterDelimiters(SplitFrom(s, d, cur), d)
    decreases |s|
  {
    if s == [] {
    } else if cur != [] && cur[|cur| - 1] in d && IsSpace(s[0]) {
      var rest := SplitFrom(LStrip(s), d, "");
      var parts := [cur] + rest;
      assert SplitFrom(s, d, cur) == parts;
      SplitFromCuts(LStrip(s), d, "");
      forall k | 1 <= k < |parts| - 1 ensures parts[k] != [] && parts[k][|parts[k]| - 1] in d {
        assert parts[k] == rest[k - 1];
      }
    } else {
      SplitFromCuts(s[1..], d, cur + [s[0]]);
    }
  }

  lemma {:induction false} SplitFromNoSplitPoints(s: string, d: set<char>, cur: string)
    requires NoSplitPoint(cur, d)
    ensures NoPartSplits(SplitFrom(s, d, cur), d)
    decreases |s|
  {
    if s == [] {
    } else if cur != [] && cur[|cur| - 1] in d && IsSpace(s[0]) {
      var rest := SplitFrom(LStrip(s), d, "");
      var parts := [cur] + rest;
      assert SplitFrom(s, d, cur) == parts;
      SplitFromNoSplitPoints(LStrip(s), d, "");
      forall k | 0 <= k < |parts| ensures NoSplitPoint(parts[k], d) {
        if k > 0 { assert parts[k] == rest[k - 1]; }
      }
    } else {
      var next := cur + [s[0]];
      assert NoSplitPoint(next, d) by {
        forall j | 0 <= j < |next| - 1
          ensures !(next[j] in d && IsSpace(next[j + 1]))
        {
          if j < |cur| - 1 {
            assert next[j] == cur[j] && next[j + 1] == cur[j + 1];
          }
        }
      }
      SplitFromNoSplitPoints(s[1..], d, next);
    }
  }

  /** A non-empty run of whitespace: what the pattern's `\s+` consumes. */
  predicate SpaceRun(w: string) {
    w != [] && forall i :: 0 <= i < |w| ==> IsSpace(w[i])
  }

  /** `parts[0] + seps[0] + parts[1] + ... + seps[n-2] + parts[n-1]`. */
  function Interleave(parts: seq<string>, seps: seq<string>): string
    requires |parts| == |seps| + 1
    decreases |seps|
  {
    if seps == [] then parts[0] else parts[0] + seps[0] + Interleave(parts[1..], seps[1..])
  }

  /** `parts`, with the whitespace runs `seps` put back between them, is `s`. */
  predicate Rebuilds(s: string, parts: seq<string>, seps: seq<string>) {
    && |parts| == |seps| + 1
    && (forall k :: 0 <= k < |seps| ==> SpaceRun(seps[k]))
    && Interleave(parts, seps) == s
  }

  predicate StartsClean(p: string) {
    p == [] || !IsSpace(p[0])
  }

  predicate EndsClean(p: string) {
    p == [] || !IsSpace(p[|p| - 1])
  }

  /** The whitespace runs `SplitFrom` drops, in order. */
  ghost function DroppedFrom(s: string, d: set<char>, cur: string): seq<string>
    decreases |s|
  {
    if s == [] then []
    else if cur != [] && cur[|cur| - 1] in d && IsSpace(s[0]) then
      [s[..|s| - |LStrip(s)|]] + DroppedFrom(LStrip(s), d, "")
    else DroppedFrom(s[1..], d, cur + [s[0]])
  }

  lemma InterleaveCons(p: string, rest: seq<string>, w: string, seps: seq<string>)
    requires |rest| == |seps| + 1
    ensures Interleave([p] + rest, [w] + seps) == p + w + Interleave(rest, seps)
  {
    assert ([p] + rest)[1..] == rest && ([w] + seps)[1..] == seps;
  }

  /** Putting back the whitespace run `w` a cut dropped before `r`. */
  lemma RebuildsCut(cur: string, w: string, r: string, rest: seq<string>, seps: seq<string>)
    requires SpaceRun(w)
    requires Rebuilds(r, rest, seps)
    ensures Rebuilds(cur + (w + r), [cur] + rest, [w] + seps)
  {
    var seps' := [w] + seps;
    forall k | 0 <= k < |seps'| ensures SpaceRun(seps'[k]) {
      if k > 0 { assert seps'[k] == seps[k - 1]; }
    }
    InterleaveCons(cur, rest, w, seps);
    assert cur + w + r == cur + (w + r);
  }

  lemma {:induction false} SplitFromRebuilds(s: string, d: set<char>, cur: string)
    ensures Rebuilds(cur + s, SplitFrom(s, d, cur), DroppedFrom(s, d, cur))
    decreases |s|
  {
    if s == [] {
      assert cur + s == cur;
    } else if cur != [] && cur[|cur| - 1] in d && IsSpace(s[0]) {
      var r := LStrip(s);
      SplitFromRebuilds(r, d, "");
      assert "" + r == r;
      LStripLeadingRun(s);
      RebuildsCut(cur, s[..|s| - |r|], r, SplitFrom(r, d, ""), DroppedFrom(r, d, ""));
    } else {
      SplitFromRebuilds(s[1..], d, cur + [s[0]]);
      assert cur + [s[0]] + s[1..] == cur + s;
    }
  }

  /** No part after the first starts with whitespace. */
  predicate LaterPartsClean(parts: seq<string>) {
    forall k :: 1 <= k < |parts| ==> StartsClean(parts[k])
  }

  /** The last part is non-empty and does not end with whitespace. */
  predicate LastPartClean(parts: seq<string>) {
    parts != [] && parts[|parts| - 1] != [] && EndsClean(parts[|parts| - 1])
  }

  /** A dropped whitespace run is dropped whole: no later part starts with
      whitespace. */
  lemma {:induction false} SplitFromLaterClean(s: string, d: set<char>, cur: string)
    ensures LaterPartsClean(SplitFrom(s, d, cur))
    decreases |s|
  {
    if s == [] {
    } else if cur != [] && cur[|cur| - 1] in d && IsSpace(s[0]) {
      var r := LStrip(s);
      var rest := SplitFrom(r, d, "");
      var parts := [cur] + rest;
      assert SplitFrom(s, d, cur) == parts;
      SplitFromLaterClean(r, d, "");
      SplitFromFirstClean(r, d, "");
      assert "" + r == r;
      forall k | 1 <= k < |parts| ensures StartsClean(parts[k]) {
        assert parts[k] == rest[k - 1];
      }
    } else {
      SplitFromLaterClean(s[1..], d, cur + [s[0]]);
    }
  }

  /** The first part keeps the text's own start. */
  lemma {:induction false} SplitFromFirstClean(s: string, d: set<char>, cur: string)
    ensures StartsClean(cur + s) ==> StartsClean(SplitFrom(s, d, cur)[0])
    decreases |s|
  {
    if s == [] {
      assert cur + s == cur;
    } else if cur != [] && cur[|cur| - 1] in d && IsSpace(s[0]) {
      assert (cur + s)[0] == cur[0];
    } else {
      SplitFromFirstClean(s[1..], d, cur + [s[0]]);
      assert cur + [s[0]] + s[1..] == cur + s;
    }
  }

  /** The last part keeps the text's own end. */
  lemma {:induction false} SplitFromLastClean(s: string, d: set<char>, cur: string)
    requires cur + s != [] && EndsClean(cur + s)
    ensures LastPartClean(SplitFrom(s, d, cur))
    decreases |s|
  {
    if s == [] {
      assert cur + s == cur;
    } else if cur != [] && cur[|cur| - 1] in d && IsSpace(s[0]) {
      var r := LStrip(s);
      var rest := SplitFrom(r, d, "");
      assert SplitFrom(s, d, cur) == [cur] + rest;
      assert (cur + s)[|cur + s| - 1] == s[|s| - 1];
      LStripKeepsEnd(s);
      assert "" + r == r;
      SplitFromLastClean(r, d, "");
    } else {
      assert cur + [s[0]] + s[1..] == cur + s;
      SplitFromLastClean(s[1..], d, cur + [s[0]]);
    }
  }

  /** The split cuts exactly at the split points and keeps everything else:
      the parts with the dropped whitespace runs put back are the text; every
      part but the last ends with a delimiter, no later part starts with
      whitespace (the whole run after the delimiter is dropped), and no part
      still holds a delimiter followed by whitespace. */
  lemma SplitPartsSpec(s: string, d: set<char>)
    ensures exists seps :: Rebuilds(s, SplitParts(s, d), seps)
    ensures CutAfterDelimiters(SplitParts(s, d), d)
    ensures LaterPartsClean(SplitParts(s, d))
    ensures NoPartSplits(SplitParts(s, d), d)
  {
    SplitFromRebuilds(s, d, "");
    assert "" + s == s;
    assert Rebuilds(s, SplitParts(s, d), DroppedFrom(s, d, ""));
    SplitFromLaterClean(s, d, "");
    SplitFromCuts(s, d, "");
    SplitFromNoSplitPoints(s, d, "");
  }

  /** The merge loop's state: the chunks emitted so far and the text held back. */
  datatype ChunkState = ChunkState(result: seq<string>, buffer: string)

  /** The merge loop's treatment of a non-blank stripped part `p`. */
  function ChunkPush(st: ChunkState, p: string): ChunkState {
    var candidate := if st.buffer != "" then Strip(st.buffer + " " + p) else p;
    if |candidate| < MinChunkSize then ChunkState(st.result, candidate)
    else if st.buffer != "" && |st.buffer| >= MinChunkSize then ChunkState(st.result + [st.buffer], p)
    else ChunkState(st.result + [candidate], "")
  }

  /** One turn of the merge loop on a raw part: blank parts are skipped. */
  function ChunkStep(st: ChunkState, part: string): ChunkState {
    var p := Strip(part);
    if p == "" then st else ChunkPush(st, p)
  }

  function ChunkFold(parts: seq<string>): ChunkState
    decreases |parts|
  {
    if parts == [] then ChunkState([], "")
    else ChunkStep(ChunkFold(parts[..|parts| - 1]), parts[|parts| - 1])
  }

  /** After the loop: a short remainder joins the last chunk, any other
      remainder becomes a chunk of its own. */
  function ChunkFinish(st: ChunkState): seq<string> {
    if st.buffer == "" then st.result
    else if st.result != [] && |st.buffer| < MinChunkSize then
      st.result[|st.result| - 1 := st.result[|st.result| - 1] + " " + st.buffer]
    else st.result + [st.buffer]
  }

  /** The merge loop over already split parts, with `text` as the fallback
      chunk when no part is left. */
  function ChunksOf(parts: seq<string>, text: string): seq<string> {
    var r := ChunkFinish(ChunkFold(parts));
    if r == [] then [text] else r
  }

  /** `_split_into_chunks(text, mode)`. */
  function Chunks(text: string, mode: string): seq<string> {
    ChunksOf(SplitParts(Strip(text), Delimiters(mode)), text)
  }

  /** The non-empty stripped parts, in order: the text the chunks carry. */
  function Kept(parts: seq<string>): (k: seq<string>)
    ensures forall i :: 0 <= i < |k| ==> k[i] != "" && Stripped(k[i])
    decreases |parts|
  {
    if parts == [] then []
    else
      var p := Strip(parts[|parts| - 1]);
      StripResult(parts[|parts| - 1]);
      Kept(parts[..|parts| - 1]) + (if p == "" then [] else [p])
  }

  /** The chunks emitted and the buffer, as one list of pieces. */
  function Pending(st: ChunkState): seq<string> {
    st.result + (if st.buffer == "" then [] else [st.buffer])
  }

  lemma JoinSpaceSnoc(xs: seq<string>, y: string)
    ensures JoinSpace(xs + [y]) == if xs == [] then y else JoinSpace(xs) + " " + y
  {
    assert (xs + [y])[..|xs + [y]| - 1] == xs;
  }

  /** Gluing a piece onto the last one with a space leaves the space-joined
      text as it was. */
  lemma JoinSpaceMerge(xs: seq<string>, x: string, y: string)
    ensures JoinSpace(xs + [x + " " + y]) == JoinSpace(xs + [x]) + " " + y
  {
    JoinSpaceSnoc(xs, x + " " + y);
    JoinSpaceSnoc(xs, x);
  }

  lemma StripJoined(b: string, p: string)
    requires b != "" && Stripped(b) && p != "" && Stripped(p)
    ensures Strip(b + " " + p) == b + " " + p
  {
    var c := b + " " + p;
    assert c[0] == b[0] && c[|c| - 1] == p[|p| - 1];
    StripOfStripped(c);
  }

  /** What the merge loop keeps true, with `kept` the non-blank parts read so
      far: every emitted chunk has at least 40 characters, the buffer is
      stripped, and the emitted chunks followed by the buffer, joined with
      spaces, are exactly the parts in `kept` joined with spaces. */
  predicate FoldInvariant(st: ChunkState, kept: seq<string>) {
    && (forall i :: 0 <= i < |st.result| ==> |st.result[i]| >= MinChunkSize)
    && Stripped(st.buffer)
    && (Pending(st) == [] <==> kept == [])
    && JoinSpace(Pending(st)) == JoinSpace(kept)
  }

  lemma KeptSnoc(init: seq<string>, part: string)
    ensures Kept(init + [part]) == Kept(init) + (if Strip(part) == "" then [] else [Strip(part)])
  {
    assert (init + [part])[..|init + [part]| - 1] == init;
  }

  /** Pushing a non-blank stripped part keeps `FoldInvariant`. */
  lemma ChunkPushInvariant(st: ChunkState, kept: seq<string>, p: string)
    requires FoldInvariant(st, kept)
    requires p != "" && Stripped(p)
    ensures FoldInvariant(ChunkPush(st, p), kept + [p])
  {
    JoinSpaceSnoc(kept, p);
    var b := st.buffer;
    var r := st.result;
    var next := ChunkPush(st, p);
    if b == "" {
      JoinSpaceSnoc(Pending(st), p);
      assert Pending(next) == Pending(st) + [p];
    } else {
      StripJoined(b, p);
      var c := b + " " + p;
      assert c[0] == b[0] && c[|c| - 1] == p[|p| - 1];
      assert Pending(st) == r + [b];
      JoinSpaceMerge(r, b, p);
      if |c| < MinChunkSize {
        assert next == ChunkState(r, c);
        assert Pending(next) == r + [c];
      } else if |b| >= MinChunkSize {
        assert next == ChunkState(r + [b], p);
        assert Pending(next) == (r + [b]) + [p];
        JoinSpaceSnoc(r + [b], p);
      } else {
        assert next == ChunkState(r + [c], "");
        assert Pending(next) == r + [c];
      }
    }
  }

  lemma ChunkFoldStep(parts: seq<string>, i: nat)
    requires i < |parts|
    ensures ChunkFold(parts[..i + 1]) == ChunkStep(ChunkFold(parts[..i]), parts[i])
  {
    assert parts[..i + 1][..i] == parts[..i];
  }

  lemma {:induction false} ChunkFoldInvariant(parts: seq<string>)
    ensures FoldInvariant(ChunkFold(parts), Kept(parts))
    decreases |parts|
  {
    if parts != [] {
      var init := parts[..|parts| - 1];
      var part := parts[|parts| - 1];
      assert init + [part] == parts;
      ChunkFoldInvariant(init);
      KeptSnoc(init, part);
      StripResult(part);
      var p := Strip(part);
      if p != "" {
        ChunkPushInvariant(ChunkFold(init), Kept(init), p);
        assert ChunkFold(parts) == ChunkPush(ChunkFold(init), p);
        assert Kept(parts) == Kept(init) + [p];
      } else {
        assert ChunkFold(parts) == ChunkFold(init);
        assert Kept(parts) == Kept(init);
      }
    }
  }

  /** Finishing turns the pending pieces into chunks without changing the
      space-joined text, and yields nothing only when nothing was pending. */
  lemma ChunkFinishSpec(st: ChunkState)
    requires forall i :: 0 <= i < |st.result| ==> |st.result[i]| >= MinChunkSize
    ensures var r := ChunkFinish(st);
      (r == [] <==> Pending(st) == [])
      && JoinSpace(r) == JoinSpace(Pending(st))
      && forall i :: 0 <= i < |r| ==> |r[i]| >= MinChunkSize || r == [st.buffer]
  {
    var r := st.result;
    var b := st.buffer;
    if b == "" {
      assert Pending(st) == r;
    } else if r != [] && |b| < MinChunkSize {
      var init := r[..|r| - 1];
      var last := r[|r| - 1];
      assert r == init + [last];
      assert Pending(st) == (init + [last]) + [b];
      assert ChunkFinish(st) == init + [last + " " + b];
      JoinSpaceMerge(init, last, b);
      JoinSpaceSnoc(init + [last], b);
    } else {
      assert ChunkFinish(st) == Pending(st);
    }
  }

  /** `_split_into_chunks` never returns an empty list. */
  lemma ChunksNonEmpty(parts: seq<string>, text: string)
    ensures |ChunksOf(parts, text)| >= 1
  {
  }

  /** Without a non-blank part the text comes back whole as the only chunk. */
  lemma ChunksOfBlankParts(parts: seq<string>, text: string)
    requires Kept(parts) == []
    ensures ChunksOf(parts, text) == [text]
  {
    ChunkFoldInvariant(parts);
    ChunkFinishSpec(ChunkFold(parts));
  }

  /** A chunk shorter than 40 characters is the only chunk. */
  lemma ChunkSizes(parts: seq<string>, text: string)
    ensures var cs := ChunksOf(parts, text);
      forall i :: 0 <= i < |cs| ==> |cs[i]| >= MinChunkSize || |cs| == 1
  {
    ChunkFoldInvariant(parts);
    ChunkFinishSpec(ChunkFold(parts));
  }

  /** Order and content are kept: the chunks joined with single spaces are
      the non-blank stripped parts joined with single spaces. */
  lemma ChunksPreserveText(parts: seq<string>, text: string)
    requires Kept(parts) != []
    ensures JoinSpace(ChunksOf(parts, text)) == JoinSpace(Kept(parts))
  {
    ChunkFoldInvariant(parts);
    ChunkFinishSpec(ChunkFold(parts));
  }

  /** `n` single spaces, one per dropped whitespace run. */
  function SingleSpaces(n: nat): (w: seq<string>)
    ensures |w| == n
  {
    seq(n, _ => " ")
  }

  lemma JoinSpaceCons(p: string, rest: seq<string>)
    requires rest != []
    ensures JoinSpace([p] + rest) == p + " " + JoinSpace(rest)
    decreases |rest|
  {
    var xs := [p] + rest;
    if |rest| == 1 {
      assert xs[..|xs| - 1] == [p];
    } else {
      var init := rest[..|rest| - 1];
      assert xs[..|xs| - 1] == [p] + init;
      JoinSpaceCons(p, init);
    }
  }

  /** Joining with single spaces is interleaving with single spaces. */
  lemma {:induction false} JoinSpaceInterleave(parts: seq<string>)
    requires parts != []
    ensures JoinSpace(parts) == Interleave(parts, SingleSpaces(|parts| - 1))
    decreases |parts|
  {
    if |parts| > 1 {
      var rest := parts[1..];
      assert [parts[0]] + rest == parts;
      JoinSpaceCons(parts[0], rest);
      JoinSpaceInterleave(rest);
      assert SingleSpaces(|parts| - 1)[1..] == SingleSpaces(|rest| - 1);
    }
  }

  lemma DelimitersNotSpace(mode: string, c: char)
    requires c in Delimiters(mode)
    ensures !IsSpace(c)
  {
  }

  /** Non-empty stripped parts are all kept, unchanged. */
  lemma {:induction false} KeptStrippedParts(parts: seq<string>)
    requires forall k :: 0 <= k < |parts| ==> parts[k] != "" && Stripped(parts[k])
    ensures Kept(parts) == parts
    decreases |parts|
  {
    if parts != [] {
      var init := parts[..|parts| - 1];
      KeptStrippedParts(init);
      StripOfStripped(parts[|parts| - 1]);
      assert init + [parts[|parts| - 1]] == parts;
    }
  }

  /** The parts of a non-blank stripped text are non-empty and stripped. */
  lemma SplitStrippedParts(s: string, mode: string)
    requires s != "" && Stripped(s)
    ensures var parts := SplitParts(s, Delimiters(mode));
      forall k :: 0 <= k < |parts| ==> parts[k] != "" && Stripped(parts[k])
  {
    var d := Delimiters(mode);
    var parts := SplitParts(s, d);
    SplitPartsSpec(s, d);
    SplitFromFirstClean(s, d, "");
    SplitFromLastClean(s, d, "");
    assert "" + s == s;
    forall k | 0 <= k < |parts| ensures parts[k] != "" && Stripped(parts[k]) {
      if k < |parts| - 1 {
        DelimitersNotSpace(mode, parts[k][|parts[k]| - 1]);
      }
    }
  }

  /** From the caller's text to the chunks: the stripped text is the split
      parts with the dropped whitespace runs put back, and the chunks joined
      with single spaces are the same parts with one space in place of each
      run. So the chunks carry the text in order, only the whitespace after
      the delimiters changing. */
  lemma ChunksCarryText(text: string, mode: string)
    requires Strip(text) != ""
    ensures var parts := SplitParts(Strip(text), Delimiters(mode));
      exists seps :: Rebuilds(Strip(text), parts, seps)
        && JoinSpace(Chunks(text, mode)) == Interleave(parts, SingleSpaces(|seps|))
  {
    var s := Strip(text);
    var d := Delimiters(mode);
    var parts := SplitParts(s, d);
    StripResult(text);
    SplitFromRebuilds(s, d, "");
    assert "" + s == s;
    var seps := DroppedFrom(s, d, "");
    assert Rebuilds(s, parts, seps);
    SplitStrippedParts(s, mode);
    KeptStrippedParts(parts);
    ChunksPreserveText(parts, text);
    JoinSpaceInterleave(parts);
    assert JoinSpace(Chunks(text, mode)) == Interleave(parts, SingleSpaces(|seps|));
  }

  /** `_split_into_chunks`: the merge loop over the split parts. */
  method SplitIntoChunks(text: string, mode: string) returns (chunks: seq<string>)
    ensures chunks == Chunks(text, mode)
  {
    chunks := MergeParts(SplitParts(Strip(text), Delimiters(mode)), text);
  }

  /** The merge loop of `_split_into_chunks` over the split parts. */
  method MergeParts(parts: seq<string>, text: string) returns (chunks: seq<string>)
    ensures chunks == ChunksOf(parts, text)
  {
    var result: seq<string> := [];
    var buffer := "";
    for i := 0 to |parts|
      invariant ChunkState(result, buffer) == ChunkFold(parts[..i])
    {
      ChunkFoldStep(parts, i);
      var part := Strip(parts[i]);
      if part == "" {
        continue;
      }
      ghost var before := ChunkState(result, buffer);
      var candidate := if buffer != "" then Strip(buffer + " " + part) else part;
      if |candidate| < MinChunkSize {
        buffer := candidate;
      } else if buffer != "" && |buffer| >= MinChunkSize {
        result := result + [buffer];
        buffer := part;
      } else {
        result := result + [candidate];
        buffer := "";
      }
      assert ChunkState(result, buffer) == ChunkPush(before, part);
    }
    assert parts[..|parts|] == parts;
    ghost var finished := ChunkFinish(ChunkFold(parts));
    if buffer != "" {
      if result != [] && |buffer| < MinChunkSize {
        result := result[|result| - 1 := result[|result| - 1] + " " + buffer];
      } else {
        result := result + [buffer];
      }
    }
    assert result == finished;
    chunks := if result != [] then result else [text];
    assert chunks == ChunksOf(parts, text);
  }

  /** `_split_sentences`: chunking in sentence mode. */
  method SplitSentences(text: string) returns (chunks: seq<string>)
    ensures chunks == Chunks(text, "sentence")
    ensures forall i :: 0 <= i < |chunks| ==> |chunks[i]| >= MinChunkSize || |chunks| == 1
  {
    chunks := SplitIntoChunks(text, "sentence");
    ChunkSizes(SplitParts(Strip(text), Delimiters("sentence")), text);
  }

  /** The synthesised audio of each chunk, in chunk order. */
  function SynthAll(cs: seq<string>, synth: string -> Bytes): (audio: seq<Bytes>)
    ensures |audio| == |cs|
    ensures forall i :: 0 <= i < |cs| ==> audio[i] == synth(cs[i])
  {
    seq(|cs|, i requires 0 <= i < |cs| => synth(cs[i]))
  }

  /** `generate_stream`: any language but "en" fails before the first chunk;
      otherwise one synthesised chunk per text chunk, in order. The
      `chunk_mode` keyword defaults to sentence mode. */
  function GenerateStream(text: string, language: string, chunkMode: Option<string>,
                          synth: string -> Bytes): (r: Result<seq<Bytes>, string>)
    ensures r.Err? <==> language != "en"
    ensures r.Ok? ==> r.value == SynthAll(Chunks(text, chunkMode.GetOr("sentence")), synth)
  {
    if language != "en" then Err("LuxTTS only supports English, got: " + language)
    else Ok(SynthAll(Chunks(text, chunkMode.GetOr("sentence")), synth))
  }

  /** A stream that does not fail is never empty. */
  lemma StreamNonEmpty(text: string, language: string, chunkMode: Option<string>, synth: string -> Bytes)
    ensures GenerateStream(text, language, chunkMode, synth).Ok? ==>
      |GenerateStream(text, language, chunkMode, synth).value| >= 1
  {
    ChunksNonEmpty(SplitParts(Strip(text), Delimiters(chunkMode.GetOr("sentence"))), text);
  }

  /** The loop of `generate` over the stream: every chunk is collected in
      order, and the first one to arrive marks the first byte unless one was
      already marked. */
  method CollectStream(stream: seq<Bytes>, timing: TimingContext, arrival: nat -> real)
    returns (audioChunks: seq<Bytes>)
    modifies timing
    ensures audioChunks == stream
    ensures timing.startTime == old(timing.startTime) && timing.endTime == old(timing.endTime)
    ensures old(timing.firstByteTime).None? && stream != [] ==> timing.firstByteTime == Some(arrival(0))
    ensures old(timing.firstByteTime).Some? || stream == [] ==> timing.firstByteTime == old(timing.firstByteTime)
  {
    audioChunks := [];
    for k := 0 to |stream|
      invariant audioChunks == stream[..k]
      invariant timing.startTime == old(timing.startTime) && timing.endTime == old(timing.endTime)
      invariant old(timing.firstByteTime).None? && k > 0 ==> timing.firstByteTime == Some(arrival(0))
      invariant old(timing.firstByteTime).Some? || k == 0 ==> timing.firstByteTime == old(timing.firstByteTime)
    {
      if timing.firstByteTime.None? {
        timing.MarkFirstByte(arrival(k));
      }
      audioChunks := audioChunks + [stream[k]];
    }
    assert stream[..|stream|] == stream;
  }

  const SampleRate: int := 48000

  /** The body of `generate` once the stream has been opened: the context is
      entered at `start`, the stream collected (chunk `k` arriving at
      `arrival(k)`) and the context left at `end`. The duration counts 16-bit
      samples (`len // 2`) at 48 kHz, and the reported latency is the time to
      first byte unless that is zero. */
  method TimedCollect(stream: seq<Bytes>, text: string, language: string,
                      start: real, arrival: nat -> real, end: real) returns (result: TtsResult)
    requires stream != []
    ensures result.audioData == Join(stream)
    ensures result.sampleRate == SampleRate
    ensures result.durationSeconds == (|result.audioData| / 2) as real / SampleRate as real
    ensures result.ttfbMs == Some(1000.0 * (arrival(0) - start))
    ensures result.latencyMs == ReportedLatency(result.ttfbMs, 1000.0 * (end - start))
    ensures result.characters == |text|
    ensures result.provider == "LuxTTS Streaming" && result.voice == "cloned" && result.language == language
  {
    var timing := new TimingContext();
    timing.Enter(start);
    var audioChunks := CollectStream(stream, timing, arrival);
    timing.Exit(end);
    var audio := Join(audioChunks);
    var duration := (|audio| / 2) as real / SampleRate as real;
    var ttfb := timing.TtfbMs();
    result := TtsResult(audio, SampleRate, duration, ReportedLatency(ttfb, timing.TotalMs()), ttfb,
                        |text|, "LuxTTS Streaming", "cloned", language);
  }

  /** `generate`: the chunks of the stream are collected while the timing
      context runs, the first one marking the first byte. The clock reads
      `start` on entry, `arrival(k)` when chunk `k` arrives and `end` on exit.
      A language other than English fails before any chunk. */
  method Generate(text: string, language: string, chunkMode: Option<string>, synth: string -> Bytes,
                  start: real, arrival: nat -> real, end: real) returns (r: Result<TtsResult, string>)
    ensures r.Err? <==> language != "en"
    ensures r.Ok? ==>
      var stream := GenerateStream(text, language, chunkMode, synth).value;
      var ttfb := Some(1000.0 * (arrival(0) - start));
      && r.value.audioData == Join(stream)
      && r.value.sampleRate == SampleRate
      && r.value.durationSeconds == (|r.value.audioData| / 2) as real / SampleRate as real
      && r.value.ttfbMs == ttfb
      && r.value.latencyMs == ReportedLatency(ttfb, 1000.0 * (end - start))
      && r.value.characters == |text|
      && r.value.provider == "LuxTTS Streaming" && r.value.voice == "cloned" && r.value.language == language
  {
    var stream := GenerateStream(text, language, chunkMode, synth);
    if stream.Err? {
      return Err(stream.error);
    }
    StreamNonEmpty(text, language, chunkMode, synth);
    var result := TimedCollect(stream.value, text, language, start, arrival, end);
    r := Ok(result);
  }
}
