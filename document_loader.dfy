/** Loading documents and splitting them into overlapping chunks
    (tools/document_loader.py). The file readers are parameters. */
module DocumentLoader {
  import opened Text
  import opened Seqs

  const DEFAULT_CHUNK_SIZE: int := 1000
  const DEFAULT_CHUNK_OVERLAP: int := 200

  /** The parameters under which the chunking loop moves forward. The source
      does not check them: a larger overlap combined with an early cut can move
      the next window's start backwards and loop for ever. */
  predicate ValidParams(chunkSize: int, chunkOverlap: int) {
    chunkSize >= 1 && chunkOverlap >= 0 && 2 * chunkOverlap <= chunkSize
  }

  /** A raw window `text[start:end]`. The last window's `end` may lie past the
      end of the text; slicing then stops at the end. */
  datatype Window = Window(start: int, end: int)

  /** The characters a window may be cut after: a full stop or a line break. */
  predicate IsBreak(c: char) { c == '.' || c == '\n' }

  /** The last index below `j`, and not below `lo`, of a break in `text`; or
      `lo - 1` when there is none. */
  function LastBreak(text: string, lo: nat, j: nat): (r: int)
    requires lo <= j <= |text|
    ensures lo - 1 <= r < j
    ensures r >= lo ==> IsBreak(text[r])
    ensures forall k :: r < k < j ==> !IsBreak(text[k])
    decreases j
  {
    if j == lo then lo - 1
    else if IsBreak(text[j - 1]) then j - 1
    else LastBreak(text, lo, j - 1)
  }

  /** For the window `chunk = text[start:start + size]`, the offset in it of
      its last break, or -1. */
  function BreakPoint(text: string, start: nat, size: nat): (bp: int)
    requires start + size <= |text|
    ensures -1 <= bp < size
    ensures bp >= 0 ==> IsBreak(text[start + bp])
    ensures forall j :: start + bp < j < start + size ==> !IsBreak(text[j])
  {
    LastBreak(text, start, start + size) - start
  }

  /** `max(chunk.rfind('.'), chunk.rfind('\n'))` is that offset. */
  lemma BreakPointIsMaxRFind(text: string, start: nat, size: nat)
    requires start + size <= |text|
    ensures var chunk := text[start..start + size];
      Max(RFind(chunk, '.'), RFind(chunk, '\n')) == BreakPoint(text, start, size)
  {
    var chunk := text[start..start + size];
    var m, bp := Max(RFind(chunk, '.'), RFind(chunk, '\n')), BreakPoint(text, start, size);
    assert forall j :: 0 <= j < size ==> chunk[j] == text[start + j];
  }

  /** The end of the window that starts at `start`: `start + size`, unless
      that stays inside the text and the window's last break lies past half of
      it, in which case the window ends just after that break. */
  function WindowEnd(text: string, start: nat, size: int): (end: int)
    requires start < |text| && size >= 1
    ensures start < end <= start + size
    ensures end == start + size || 2 * (end - start - 1) > size
  {
    var end := start + size;
    if end < |text| then
      var bp := BreakPoint(text, start, size);
      if 2 * bp > size then start + bp + 1 else end
    else end
  }

  /** The end the chunking loop computes for the window at `start`. */
  lemma WindowEndInLoop(text: string, start: nat, size: int, end: int)
    requires start < |text| && size >= 1
    requires start + size < |text| ==>
      var chunk := text[start..start + size];
      end == (if 2 * Max(RFind(chunk, '.'), RFind(chunk, '\n')) > size
              then start + Max(RFind(chunk, '.'), RFind(chunk, '\n')) + 1 else start + size)
    requires start + size >= |text| ==> end == start + size
    ensures end == WindowEnd(text, start, size)
  {
    if start + size < |text| {
      BreakPointIsMaxRFind(text, start, size);
    }
  }

  /** A window is cut short exactly when it stays inside the text and its last
      break lies past half of it; the cut falls just after that last break. */
  lemma WindowEndCut(text: string, start: nat, size: int)
    requires start < |text| && size >= 1
    ensures var end := WindowEnd(text, start, size);
      if start + size < |text| && exists j :: start <= j < start + size && IsBreak(text[j]) && 2 * (j - start) > size
      then IsBreak(text[end - 1]) && 2 * (end - 1 - start) > size
        && forall j :: end <= j < start + size ==> !IsBreak(text[j])
      else end == start + size
  {
    if start + size < |text| {
      var bp := BreakPoint(text, start, size);
      if exists j :: start <= j < start + size && IsBreak(text[j]) && 2 * (j - start) > size {
        var j :| start <= j < start + size && IsBreak(text[j]) && 2 * (j - start) > size;
        assert j <= start + bp;
      }
    }
  }

  /** A window as `chunk_text` forms it: inside the text at its start, no
      longer than `size`, ending where `WindowEnd` says. */
  predicate WellFormed(text: string, size: int, w: Window) {
    0 <= w.start < |text| && size >= 1 && w.end == WindowEnd(text, w.start, size)
  }

  /** Each window after the first starts at the previous end minus the overlap. */
  predicate Chained(ws: seq<Window>, overlap: int) {
    forall k :: 0 <= k < |ws| - 1 ==> ws[k + 1].start == ws[k].end - overlap
  }

  /** The raw windows `chunk_text` visits from `start` on. */
  function WindowsFrom(text: string, size: int, overlap: int, start: nat): (ws: seq<Window>)
    requires ValidParams(size, overlap)
    ensures ws == [] <==> start >= |text|
    ensures ws != [] ==> ws[0].start == start
    decreases |text| - start
  {
    if start >= |text| then []
    else
      var end := WindowEnd(text, start, size);
      [Window(start, end)] + WindowsFrom(text, size, overlap, end - overlap)
  }

  /** Every window ends where `WindowEnd` says, at most `size` past its start. */
  lemma {:induction false} WindowsFromWellFormed(text: string, size: int, overlap: int, start: nat)
    requires ValidParams(size, overlap)
    ensures forall k :: 0 <= k < |WindowsFrom(text, size, overlap, start)| ==>
      WellFormed(text, size, WindowsFrom(text, size, overlap, start)[k])
    decreases |text| - start
  {
    if start < |text| {
      var end := WindowEnd(text, start, size);
      WindowsFromWellFormed(text, size, overlap, end - overlap);
      var ws := WindowsFrom(text, size, overlap, start);
      assert ws[1..] == WindowsFrom(text, size, overlap, end - overlap);
    }
  }

  /** One step of the chunking loop: the window at `start`, then the windows
      from its end minus the overlap. */
  lemma WindowsFromStep(text: string, size: int, overlap: int, start: nat)
    requires ValidParams(size, overlap) && start < |text|
    ensures WindowsFrom(text, size, overlap, start)
      == [Window(start, WindowEnd(text, start, size))] + WindowsFrom(text, size, overlap, WindowEnd(text, start, size) - overlap)
  {
  }

  /** Window starts strictly increase. */
  predicate Increasing(ws: seq<Window>) {
    forall k :: 0 <= k < |ws| - 1 ==> ws[k].start < ws[k + 1].start
  }

  lemma ChainedCons(w: Window, ws: seq<Window>, overlap: int)
    requires Chained(ws, overlap) && Increasing(ws)
    requires ws != [] ==> ws[0].start == w.end - overlap && w.start < ws[0].start
    ensures Chained([w] + ws, overlap) && Increasing([w] + ws)
  {
    assert forall k :: 1 <= k < |ws| + 1 ==> ([w] + ws)[k] == ws[k - 1];
  }

  /** Consecutive windows overlap by exactly `overlap` characters and their
      starts strictly increase. */
  lemma {:induction false} WindowsFromChained(text: string, size: int, overlap: int, start: nat)
    requires ValidParams(size, overlap)
    ensures Chained(WindowsFrom(text, size, overlap, start), overlap)
    ensures Increasing(WindowsFrom(text, size, overlap, start))
    decreases |text| - start
  {
    if start < |text| {
      var end := WindowEnd(text, start, size);
      WindowsFromChained(text, size, overlap, end - overlap);
      WindowsFromStep(text, size, overlap, start);
      ChainedCons(Window(start, end), WindowsFrom(text, size, overlap, end - overlap), overlap);
    }
  }

  /** After the last window the loop would move to a start at or past the
      end of the text; as the overlap is not negative, the last window itself
      reaches that end. */
  lemma {:induction false} WindowsFromReachEnd(text: string, size: int, overlap: int, start: nat)
    requires ValidParams(size, overlap) && start < |text|
    ensures var ws := WindowsFrom(text, size, overlap, start);
      ws[|ws| - 1].end - overlap >= |text|
    decreases |text| - start
  {
    var end := WindowEnd(text, start, size);
    WindowsFromStep(text, size, overlap, start);
    if end - overlap < |text| {
      WindowsFromReachEnd(text, size, overlap, end - overlap);
    }
  }

  /** All raw windows of `text`, the first starting at 0. */
  function Windows(text: string, size: int, overlap: int): seq<Window>
    requires ValidParams(size, overlap)
  {
    WindowsFrom(text, size, overlap, 0)
  }

  /** `text[w.start:w.end]` with Python's clamping at the end of the text. */
  function WindowText(text: string, w: Window): string
    requires 0 <= w.start <= |text| && w.start <= w.end
  {
    if w.end <= |text| then text[w.start..w.end] else text[w.start..]
  }

  /** The chunks `chunk_text` returns: the stripped text of each raw window,
      in window order. */
  function Chunks(text: string, size: int, overlap: int): (cs: seq<string>)
    requires ValidParams(size, overlap)
    ensures |cs| == |Windows(text, size, overlap)|
    ensures cs == [] <==> text == []
  {
    var ws := Windows(text, size, overlap);
    WindowsFromWellFormed(text, size, overlap, 0);
    seq(|ws|, k requires 0 <= k < |ws| => Strip(WindowText(text, ws[k])))
  }

  /** The facts about the raw windows the chunking loop steps through. */
  lemma WindowsLoopFacts(text: string, size: int, overlap: int)
    requires ValidParams(size, overlap)
    ensures var ws := Windows(text, size, overlap);
      && (ws == [] <==> text == [])
      && (ws != [] ==> ws[0].start == 0 && ws[|ws| - 1].end - overlap >= |text|)
      && (forall k :: 0 <= k < |ws| ==> WellFormed(text, size, ws[k]))
      && (forall k :: 0 <= k < |ws| - 1 ==> ws[k + 1].start == ws[k].end - overlap)
  {
    WindowsFromWellFormed(text, size, overlap, 0);
    WindowsFromChained(text, size, overlap, 0);
    if text != [] {
      WindowsFromReachEnd(text, size, overlap, 0);
    }
  }

  /** The end of the window at `start`, as the body of the loop in
      `chunk_text` computes it. */
  method ChunkEnd(text: string, start: nat, chunkSize: int) returns (end: int)
    requires start < |text| && chunkSize >= 1
    ensures end == WindowEnd(text, start, chunkSize)
  {
    var textLength := |text|;
    end := start + chunkSize;
    if end < textLength {
      var chunk := text[start..end];
      var lastPeriod := RFind(chunk, '.');
      var lastNewline := RFind(chunk, '\n');
      var breakPoint := Max(lastPeriod, lastNewline);
      if 2 * breakPoint > chunkSize {
        end := start + breakPoint + 1;
      }
    }
    WindowEndInLoop(text, start, chunkSize, end);
  }

  /** The state of the chunking loop once it has produced `chunks`: one
      stripped chunk for each of the first windows, and `start` the start of
      the next window, or past the text when there is none. */
  predicate LoopState(text: string, ws: seq<Window>, chunks: seq<string>, start: int) {
    && |chunks| <= |ws|
    && (|chunks| < |ws| <==> start < |text|)
    && (|chunks| < |ws| ==> start == ws[|chunks|].start)
    && (forall k :: 0 <= k < |ws| ==> 0 <= ws[k].start < ws[k].end && ws[k].start < |text|)
    && forall k :: 0 <= k < |chunks| ==> chunks[k] == Strip(WindowText(text, ws[k]))
  }

  /** Before the first iteration the loop is in its state for no chunks. */
  lemma LoopStart(text: string, size: int, overlap: int)
    requires ValidParams(size, overlap) && text != []
    ensures LoopState(text, Windows(text, size, overlap), [], 0)
  {
    WindowsLoopFacts(text, size, overlap);
  }

  /** One iteration of the chunking loop keeps its state. */
  lemma LoopStep(text: string, size: int, overlap: int, ws: seq<Window>, chunks: seq<string>, start: int, end: int)
    requires ValidParams(size, overlap) && ws == Windows(text, size, overlap)
    requires LoopState(text, ws, chunks, start) && 0 <= start < |text|
    requires end == WindowEnd(text, start, size)
    ensures LoopState(text, ws, chunks + [Strip(WindowText(text, Window(start, end)))], end - overlap)
  {
    WindowsLoopFacts(text, size, overlap);
    var i := |chunks|;
    assert WellFormed(text, size, ws[i]);
    if i + 1 < |ws| {
      assert ws[i + 1].start == end - overlap;
    }
  }

  /** After the last iteration the chunks are those of `Chunks`. */
  lemma LoopEnd(text: string, size: int, overlap: int, ws: seq<Window>, chunks: seq<string>, start: int)
    requires ValidParams(size, overlap) && ws == Windows(text, size, overlap)
    requires LoopState(text, ws, chunks, start) && start >= |text|
    ensures chunks == Chunks(text, size, overlap)
  {
  }

  /** `DocumentLoader.chunk_text`. */
  method ChunkText(text: string, chunkSize: int, chunkOverlap: int) returns (chunks: seq<string>)
    requires ValidParams(chunkSize, chunkOverlap)
    ensures chunks == Chunks(text, chunkSize, chunkOverlap)
  {
    if |text| == 0 {
      return [];
    }
    ghost var ws := Windows(text, chunkSize, chunkOverlap);
    LoopStart(text, chunkSize, chunkOverlap);
    chunks := [];
    var start := 0;
    var textLength := |text|;
    while start < textLength
      invariant LoopState(text, ws, chunks, start)
      decreases |ws| - |chunks|
    {
      var end := ChunkEnd(text, start, chunkSize);
      LoopStep(text, chunkSize, chunkOverlap, ws, chunks, start, end);
      chunks := chunks + [Strip(WindowText(text, Window(start, end)))];
      start := end - chunkOverlap;
    }
    LoopEnd(text, chunkSize, chunkOverlap, ws, chunks, start);
  }

  /** Window `w` contains the character at `p`. */
  predicate Covers(w: Window, p: int) { w.start <= p < w.end }

  /** Every character at or after `start` lies in some raw window from
      `start` on. */
  lemma {:induction false} WindowsFromCover(text: string, size: int, overlap: int, start: nat, p: int)
    requires ValidParams(size, overlap)
    requires start <= p < |text|
    ensures exists k :: 0 <= k < |WindowsFrom(text, size, overlap, start)| && Covers(WindowsFrom(text, size, overlap, start)[k], p)
    decreases |text| - start
  {
    var ws := WindowsFrom(text, size, overlap, start);
    var end := WindowEnd(text, start, size);
    if p >= end {
      var next := end - overlap;
      WindowsFromCover(text, size, overlap, next, p);
      var rest := WindowsFrom(text, size, overlap, next);
      assert ws[1..] == rest;
      var k :| 0 <= k < |rest| && Covers(rest[k], p);
      assert Covers(ws[k + 1], p);
    } else {
      assert Covers(ws[0], p);
    }
  }

  /** The raw windows cover every character of the text. */
  lemma WindowsCover(text: string, size: int, overlap: int, p: int)
    requires ValidParams(size, overlap)
    requires 0 <= p < |text|
    ensures exists k :: 0 <= k < |Windows(text, size, overlap)| && Covers(Windows(text, size, overlap)[k], p)
  {
    WindowsFromCover(text, size, overlap, 0, p);
    var ws := Windows(text, size, overlap);
    var k :| 0 <= k < |ws| && Covers(ws[k], p);
  }

  /** Windows come in strictly increasing order of their start, each one
      after the first overlapping its predecessor by `overlap` characters,
      and the last reaching the end of the text. */
  lemma {:induction false} WindowsOrdered(text: string, size: int, overlap: int, i: int, j: int)
    requires ValidParams(size, overlap)
    requires 0 <= i < j < |Windows(text, size, overlap)|
    ensures Windows(text, size, overlap)[i].start < Windows(text, size, overlap)[j].start
    decreases j - i
  {
    WindowsFromChained(text, size, overlap, 0);
    if j > i + 1 {
      WindowsOrdered(text, size, overlap, i, j - 1);
    }
  }

  // ---------------------------------------------------------------
  // loading

  /** The file system and the format readers, all outside the model. */
  datatype Readers = Readers(
    fileExists: string -> bool,
    readPdf: string -> string,
    readDocx: string -> string,
    readText: string -> string)

  /** The extensions `load_document` reads as plain text. */
  const TEXT_EXTENSIONS: seq<string> := [".txt", ".md", ".py", ".js", ".json", ".xml", ".csv"]

  /** `os.path.basename(path)`: the text after the last '/'. */
  function BaseName(path: string): (name: string)
    ensures '/' !in name && EndsWith(path, name)
    ensures |name| < |path| ==> path[|path| - |name| - 1] == '/'
  {
    var i := RFind(path, '/');
    path[i + 1..]
  }

  /** The path without trailing '/' characters. */
  function DropTrailingSlashes(path: string): (p: string)
    ensures StartsWith(path, p) && (p != [] ==> p[|p| - 1] != '/')
  {
    if path != [] && path[|path| - 1] == '/' then DropTrailingSlashes(path[..|path| - 1]) else path
  }

  /** `Path(path).suffix` for a POSIX path: the last component's text from
      its last '.', when that '.' is neither its first nor its last character;
      the empty string otherwise. */
  function PathSuffix(path: string): (ext: string)
    ensures ext != [] ==> |ext| >= 2 && ext[0] == '.' && '.' !in ext[1..] && '/' !in ext
  {
    var name := BaseName(DropTrailingSlashes(path));
    var i := RFind(name, '.');
    if 0 < i < |name| - 1 then name[i..] else ""
  }

  /** `DocumentLoader.load_document`: a missing file or an unsupported
      extension gives the empty text; otherwise the reader chosen by the
      lower-cased extension provides it. */
  function LoadDocument(path: string, readers: Readers): (text: string)
    ensures !readers.fileExists(path) ==> text == ""
    ensures readers.fileExists(path) ==>
      var ext := Lower(PathSuffix(path));
      text == (if ext == ".pdf" then readers.readPdf(path)
               else if ext == ".docx" then readers.readDocx(path)
               else if ext in TEXT_EXTENSIONS then readers.readText(path)
               else "")
  {
    if !readers.fileExists(path) then ""
    else
      var ext := Lower(PathSuffix(path));
      if ext == ".pdf" then readers.readPdf(path)
      else if ext == ".docx" then readers.readDocx(path)
      else if ext in TEXT_EXTENSIONS then readers.readText(path)
      else ""
  }

  /** An extension that is none of the supported ones yields no text, however
      the readers behave. */
  lemma UnsupportedExtensionLoadsNothing(path: string, readers: Readers)
    requires Lower(PathSuffix(path)) !in [".pdf", ".docx"] + TEXT_EXTENSIONS
    ensures LoadDocument(path, readers) == ""
  {
  }

  /** `{"source": ..., "chunk_index": ..., "total_chunks": ...}` */
  datatype ChunkMetadata = ChunkMetadata(source: string, chunkIndex: nat, totalChunks: nat)

  /** `{"text": ..., "metadata": ...}` */
  datatype TaggedChunk = TaggedChunk(text: string, metadata: ChunkMetadata)

  /** `DocumentLoader.load_and_chunk_document`: chunk `i` of the loaded text,
      tagged with the file's base name, its index and the number of chunks. */
  function LoadAndChunkDocument(path: string, readers: Readers, chunkSize: int, chunkOverlap: int): (r: seq<TaggedChunk>)
    requires ValidParams(chunkSize, chunkOverlap)
    ensures |r| == |Chunks(LoadDocument(path, readers), chunkSize, chunkOverlap)|
    ensures r == [] <==> LoadDocument(path, readers) == ""
    ensures forall i :: 0 <= i < |r| ==> r[i].text == Chunks(LoadDocument(path, readers), chunkSize, chunkOverlap)[i]
    ensures forall i :: 0 <= i < |r| ==> r[i].metadata == ChunkMetadata(BaseName(path), i, |r|)
  {
    Tag(Chunks(LoadDocument(path, readers), chunkSize, chunkOverlap), BaseName(path))
  }

  /** Each chunk with its metadata. */
  function Tag(chunks: seq<string>, filename: string): (r: seq<TaggedChunk>)
    ensures |r| == |chunks|
    ensures forall i :: 0 <= i < |r| ==> r[i] == TaggedChunk(chunks[i], ChunkMetadata(filename, i, |chunks|))
  {
    seq(|chunks|, i requires 0 <= i < |chunks| => TaggedChunk(chunks[i], ChunkMetadata(filename, i, |chunks|)))
  }
}
