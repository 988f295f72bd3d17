/** Two readers of byte pages of a text, which never split a character: one walks back from
    the limit, the other decodes forward. */
module Paging {
  import opened Bytes
  import opened Wrappers
  import opened Sequences
  import opened Characters
  import opened Utf8

  const MAX_FILE_BYTES: nat := 1_048_576
  const MAX_FILE_PAGE: nat := 16_384
  const MAX_OUTPUT_PAGE: nat := 4_096

  datatype ReadError = TooLarge | NotUtf8 | BadBounds

  function Min(a: nat, b: nat): nat {
    if a <= b then a else b
  }

  /** Reading a whole file as text. */
  function TextError(file: seq<Byte>): Option<ReadError> {
    if |file| > MAX_FILE_BYTES then Some(TooLarge) else if !Valid(file) then Some(NotUtf8) else None
  }

  /** `end` is the last boundary within the limit. */
  predicate EndsPage(content: seq<Byte>, offset: nat, limit: nat, end: nat) {
    && offset <= end <= |content| && end <= offset + limit && Boundary(content, end)
    && (forall i :: end < i <= |content| && i <= offset + limit ==> !Boundary(content, i))
  }

  function LastBoundary(content: seq<Byte>, offset: nat, end: nat): (last: nat)
    requires offset <= end <= |content| && Boundary(content, offset)
    ensures offset <= last <= end && Boundary(content, last)
    ensures forall i :: last < i <= end ==> !Boundary(content, i)
  {
    if Boundary(content, end) then end else LastBoundary(content, offset, end - 1)
  }

  /** Walking back from the limit: where the next page starts, if this one can be read. */
  function NextFilePage(file: seq<Byte>, offset: nat, limit: nat): (next: Option<nat>)
    ensures next.Some? ==> EndsPage(file, offset, limit, next.value)
  {
    if TextError(file).Some? || !(4 <= limit <= MAX_FILE_PAGE) || offset > |file| || !Boundary(file, offset) then None
    else Some(LastBoundary(file, offset, Min(offset + limit, |file|)))
  }

  /** Walks back from the limit to a boundary. */
  method ReadFilePage(file: seq<Byte>, offset: nat, limit: nat)
    returns (page: Result<seq<Byte>, ReadError>, next: Option<nat>)
    ensures page.Ok? <==>
              TextError(file) == None && 4 <= limit <= MAX_FILE_PAGE && offset <= |file| && Boundary(file, offset)
    ensures page.Ok? ==>
              var end := offset + |page.value|;
              && EndsPage(file, offset, limit, end) && page.value == file[offset..end]
              && NextFilePage(file, offset, limit) == Some(end)
              && next == if end < |file| then Some(end) else None
  {
    next := None;
    var unreadable := TextError(file);
    if unreadable.Some? {
      return Err(unreadable.value), None;
    }
    if limit < 4 || limit > MAX_FILE_PAGE || offset > |file| || !Boundary(file, offset) {
      return Err(BadBounds), None;
    }
    var end := Min(offset + limit, |file|);
    while !Boundary(file, end)
      invariant offset <= end <= |file| && end <= offset + limit
      invariant forall i :: end < i <= |file| && i <= offset + limit ==> !Boundary(file, i)
      decreases end
    {
      end := end - 1;
    }
    EndIsUnique(file, offset, limit, end, NextFilePage(file, offset, limit).value);
    page := Ok(file[offset..end]);
    next := if end < |file| then Some(end) else None;
  }

  /** Decodes forward: where the next page starts, if this one can be read. */
  function NextOutputPage(content: seq<Byte>, offset: nat, limit: nat): (next: Option<nat>)
    ensures next.Some? ==> offset <= next.value <= |content|
  {
    if !(4 <= limit <= MAX_OUTPUT_PAGE) || offset > |content| then None else
    var end := Min(offset + limit, |content|);
    var window := content[offset..end];
    var valid := ValidUpTo(window);
    if valid == |window| then Some(end)
    else if BreaksOff(window[valid..]) && end < |content| then Some(offset + valid)
    else None
  }

  // ---- The two agree ----

  lemma EndIsUnique(content: seq<Byte>, offset: nat, limit: nat, a: nat, b: nat)
    requires EndsPage(content, offset, limit, a) && EndsPage(content, offset, limit, b)
    ensures a == b
  {
  }

  lemma ShiftedBoundary(content: seq<Byte>, offset: nat, i: nat)
    requires Valid(content) && offset + i <= |content| && Boundary(content, offset)
    ensures Boundary(content[offset..], i) <==> Boundary(content, offset + i)
  {
    if i < |content| - offset {
      assert content[offset..][i] == content[offset + i];
    }
  }

  /** Decoding from a boundary of a valid text ends where walking back ends. */
  lemma ForwardEndsPage(content: seq<Byte>, offset: nat, limit: nat)
    requires Valid(content) && offset <= |content| && Boundary(content, offset) && 4 <= limit <= MAX_OUTPUT_PAGE
    ensures NextOutputPage(content, offset, limit).Some?
    ensures EndsPage(content, offset, limit, NextOutputPage(content, offset, limit).value)
  {
    var rest := content[offset..];
    var end := Min(offset + limit, |content|);
    BoundaryCuts(content, offset);
    var n := end - offset;
    assert content[offset..end] == rest[..n];
    WindowDecodes(rest, n);
    var v := ValidUpTo(rest[..n]);
    assert rest[..n][v..] == rest[v..n];
    ShiftedBoundary(content, offset, v);
    forall i | offset + v < i <= end ensures !Boundary(content, i) {
      ShiftedBoundary(content, offset, i - offset);
    }
  }

  /** Inside a character the forward reader finds nothing it could decode. */
  lemma ForwardNeedsBoundary(content: seq<Byte>, offset: nat, limit: nat)
    requires !Boundary(content, offset)
    ensures NextOutputPage(content, offset, limit) == None
  {
    if offset < |content| && limit > 0 {
      var window := content[offset..Min(offset + limit, |content|)];
      assert window[0] == content[offset];
      assert CharLength(window) == 0 && window[0..] == window;
      assert ValidUpTo(window) == 0 && !BreaksOff(window);
    }
  }

  /** On a valid text both readers accept exactly the offsets between characters, and give
      the same page for any limit both allow. */
  lemma PagersAgree(content: seq<Byte>, offset: nat, limit: nat, end: nat)
    requires Valid(content) && 4 <= limit <= MAX_OUTPUT_PAGE
    ensures NextOutputPage(content, offset, limit).Some? <==> offset <= |content| && Boundary(content, offset)
    ensures offset <= |content| && Boundary(content, offset) ==>
              (EndsPage(content, offset, limit, end) <==> NextOutputPage(content, offset, limit) == Some(end))
    ensures TextError(content) == None ==>
        NextFilePage(content, offset, limit) == NextOutputPage(content, offset, limit)
  {
    if !Boundary(content, offset) {
      ForwardNeedsBoundary(content, offset, limit);
    }
    if offset <= |content| && Boundary(content, offset) {
      ForwardEndsPage(content, offset, limit);
      var next := NextOutputPage(content, offset, limit).value;
      if EndsPage(content, offset, limit, end) {
        EndIsUnique(content, offset, limit, end, next);
      }
      if TextError(content) == None {
        EndIsUnique(content, offset, limit, NextFilePage(content, offset, limit).value, next);
      }
    }
  }

  /** A page is whole characters, and unless it is the last one it falls short of the limit
      by at most three bytes. */
  lemma PagesProgress(content: seq<Byte>, offset: nat, limit: nat, end: nat)
    requires Valid(content) && offset <= |content| && Boundary(content, offset) && limit >= 4
        && EndsPage(content, offset, limit, end)
    ensures Valid(content[offset..end])
    ensures end == |content| || end - offset >= limit - 3
  {
    BoundaryCuts(content, end);
    BoundaryCuts(content, offset);
    assert Boundary(content[..end], offset) by {
      if offset < end {
        assert content[..end][offset] == content[offset];
      }
    }
    BoundaryCuts(content[..end], offset);
    assert content[..end][offset..] == content[offset..end];
    if offset + limit <= |content| {
      var j := BoundaryNear(content, offset + limit);
      assert Boundary(content, j);
    } else {
      assert Boundary(content, |content|);
    }
  }

  /** From a boundary on, whole characters are what ends at a boundary. */
  lemma WholeCharacters(content: seq<Byte>, offset: nat, i: nat)
    requires Valid(content) && offset <= i <= |content| && Boundary(content, offset)
    ensures Valid(content[offset..i]) <==> Boundary(content, i)
  {
    BoundaryCuts(content, offset);
    assert content[..i] == content[..offset] + content[offset..i] && content == content[..i] + content[i..];
    ValidConcat(content[..offset], content[offset..i]);
    if Boundary(content, i) {
      BoundaryCuts(content, i);
    } else if Valid(content[offset..i]) {
      ValidConcat(content[..i], content[i..]);
      CutsAreBoundaries(content, i);
    }
  }

  /** A page is the longest well-formed text within its limit. */
  lemma PagesAreLongest(content: seq<Byte>, offset: nat, limit: nat, end: nat)
    requires Valid(content) && offset <= end <= |content| && end <= offset + limit && Boundary(content, offset)
    ensures EndsPage(content, offset, limit, end) <==>
              && Valid(content[offset..end])
              && forall i :: end < i <= |content| && i <= offset + limit ==> !Valid(content[offset..i])
  {
    forall i | offset <= i <= |content| ensures Valid(content[offset..i]) <==> Boundary(content, i) {
      WholeCharacters(content, offset, i);
    }
  }

  // ---- Following pages to the end ----

  /** Where the page that starts at an offset ends, under a limit, if it can be read. */
  type Reader = (nat, nat) -> Option<nat>

  function OutputReader(content: seq<Byte>): Reader {
    (offset: nat, limit: nat) => NextOutputPage(content, offset, limit)
  }

  function FileReader(file: seq<Byte>): Reader {
    (offset: nat, limit: nat) => NextFilePage(file, offset, limit)
  }

  /** Reads page after page, each from where the last one ended, with whatever limits;
      None if a page cannot be read. */
  function Follow(read: Reader, content: seq<Byte>, offset: nat, limits: nat -> nat, step: nat): Option<seq<seq<Byte>>>
    requires offset <= |content|
    decreases |content| - offset
  {
    if offset == |content| then Some([]) else
    var next := read(offset, limits(step));
    if next.None? || !(offset < next.value <= |content|) then None else
    var more := Follow(read, content, next.value, limits, step + 1);
    if more.None? then None else Some([content[offset..next.value]] + more.value)
  }

  ghost predicate Allowed(limits: nat -> nat, least: nat, most: nat) {
    4 <= least && forall k :: least <= limits(k) <= most
  }

  /** How many pages of a size hold a number of bytes. */
  function Ceiling(total: nat, size: nat): nat
    requires size > 0
  {
    if total <= size then (if total == 0 then 0 else 1) else 1 + Ceiling(total - size, size)
  }

  /** It is the least number of pages that suffices. */
  lemma {:induction false} CeilingIsLeast(total: nat, size: nat)
    requires size > 0
    ensures total <= Ceiling(total, size) * size
    ensures total > 0 ==> (Ceiling(total, size) - 1) * size < total
  {
    if total > size {
      CeilingIsLeast(total - size, size);
      var n := Ceiling(total - size, size);
      assert (1 + n) * size == size + n * size && n * size == (n - 1) * size + size;
    }
  }

  lemma {:induction false} CeilingGrows(a: nat, b: nat, size: nat)
    requires size > 0 && a <= b
    ensures Ceiling(a, size) <= Ceiling(b, size)
  {
    if a > size {
      CeilingGrows(a - size, b - size, size);
    }
  }

  /** Pages of whole characters that make up a text, few enough for their size. */
  predicate Covers(pages: seq<seq<Byte>>, text: seq<Byte>, size: nat)
    requires size > 0
  {
    && Flatten(pages) == text
    && (forall i :: 0 <= i < |pages| ==> pages[i] != [] && Valid(pages[i]))
    && |pages| <= Ceiling(|text|, size)
  }

  lemma CoversMore(page: seq<Byte>, pages: seq<seq<Byte>>, text: seq<Byte>, size: nat)
    requires size > 0 && Covers(pages, text, size) && page != [] && Valid(page) && (text == [] || |page| >= size)
    ensures Covers([page] + pages, page + text, size)
  {
    HeadAndTail(page, pages);
    forall i | 0 <= i < 1 + |pages| ensures ([page] + pages)[i] != [] && Valid(([page] + pages)[i]) {
      if i > 0 {
        assert ([page] + pages)[i] == pages[i - 1];
      }
    }
    if text != [] {
      CeilingGrows(size + |text|, |page| + |text|, size);
    } else {
      CeilingGrows(1, |page|, size);
    }
  }

  /** A page of whole characters, and enough of them. */
  predicate GoodPage(content: seq<Byte>, offset: nat, size: nat, next: nat) {
    && offset < next <= |content| && Boundary(content, next)
    && Valid(content[offset..next]) && (next == |content| || next - offset >= size)
  }

  predicate GoodAt(read: Reader, content: seq<Byte>, least: nat, most: nat, offset: nat, limit: nat)
    requires least >= 4
  {
    offset < |content| && Boundary(content, offset) && least <= limit <= most ==>
      read(offset, limit).Some? && GoodPage(content, offset, least - 3, read(offset, limit).value)
  }

  /** Every allowed page from between characters can be read, and is good. */
  ghost predicate GoodReader(read: Reader, content: seq<Byte>, least: nat, most: nat)
    requires least >= 4
  {
    forall offset: nat, limit: nat :: GoodAt(read, content, least, most, offset, limit)
  }

  lemma OutputReaderIsGood(content: seq<Byte>, least: nat)
    requires Valid(content) && least >= 4
    ensures GoodReader(OutputReader(content), content, least, MAX_OUTPUT_PAGE)
  {
    forall offset: nat, limit: nat
      ensures GoodAt(OutputReader(content), content, least, MAX_OUTPUT_PAGE, offset, limit)
    {
      if offset < |content| && Boundary(content, offset) && least <= limit <= MAX_OUTPUT_PAGE {
        ForwardEndsPage(content, offset, limit);
        PagesProgress(content, offset, limit, NextOutputPage(content, offset, limit).value);
      }
    }
  }

  lemma FileReaderIsGood(file: seq<Byte>, least: nat)
    requires TextError(file) == None && least >= 4
    ensures GoodReader(FileReader(file), file, least, MAX_FILE_PAGE)
  {
    forall offset: nat, limit: nat
      ensures GoodAt(FileReader(file), file, least, MAX_FILE_PAGE, offset, limit)
    {
      if offset < |file| && Boundary(file, offset) && least <= limit <= MAX_FILE_PAGE {
        PagesProgress(file, offset, limit, NextFilePage(file, offset, limit).value);
      }
    }
  }

  lemma FollowStep(read: Reader, content: seq<Byte>, offset: nat, limits: nat -> nat, step: nat, next: nat)
    requires read(offset, limits(step)) == Some(next) && offset < next <= |content|
    requires Follow(read, content, next, limits, step + 1).Some?
    ensures Follow(read, content, offset, limits, step) ==
            Some([content[offset..next]] + Follow(read, content, next, limits, step + 1).value)
  {
  }

  /** Following pages from here makes up the rest of the text. */
  predicate ReadsOn(read: Reader, content: seq<Byte>, offset: nat, limits: nat -> nat, step: nat, size: nat)
    requires offset <= |content| && size > 0
  {
    && Follow(read, content, offset, limits, step).Some?
    && Covers(Follow(read, content, offset, limits, step).value, content[offset..], size)
  }

  lemma FollowEnd(read: Reader, content: seq<Byte>, limits: nat -> nat, step: nat, size: nat)
    requires size > 0
    ensures ReadsOn(read, content, |content|, limits, step, size)
  {
    assert content[|content|..] == [];
  }

  lemma FollowMore(read: Reader, content: seq<Byte>, offset: nat, limits: nat -> nat, step: nat, next: nat, size: nat)
    requires size > 0 && GoodPage(content, offset, size, next) && read(offset, limits(step)) == Some(next)
    requires ReadsOn(read, content, next, limits, step + 1, size)
    ensures ReadsOn(read, content, offset, limits, step, size)
  {
    FollowStep(read, content, offset, limits, step, next);
    CoversMore(content[offset..next], Follow(read, content, next, limits, step + 1).value, content[next..], size);
    assert content[offset..] == content[offset..next] + content[next..];
  }
}

/** Following pages to the end of a text. */
module PageRuns {
  import opened Bytes
  import opened Wrappers
  import opened Characters
  import opened Utf8
  import opened Paging

  lemma {:induction false} FollowingReads(
    read: Reader, content: seq<Byte>, offset: nat, limits: nat -> nat, step: nat, least: nat, most: nat)
    requires Allowed(limits, least, most) && GoodReader(read, content, least, most)
    requires offset <= |content| && Boundary(content, offset)
    ensures ReadsOn(read, content, offset, limits, step, least - 3)
    decreases |content| - offset
  {
    if offset == |content| {
      FollowEnd(read, content, limits, step, least - 3);
    } else {
      assert GoodAt(read, content, least, most, offset, limits(step));
      var next := read(offset, limits(step)).value;
      FollowingReads(read, content, next, limits, step + 1, least, most);
      FollowMore(read, content, offset, limits, step, next, least - 3);
    }
  }

  /** A good reader, followed from the start with any limits it allows, reads pages that are
      whole characters and make up the content again, and no more of them than the bytes
      divided, rounding up, by three less than the smallest limit. */
  lemma FollowingReconstructs(read: Reader, content: seq<Byte>, limits: nat -> nat, least: nat, most: nat)
    requires Allowed(limits, least, most) && GoodReader(read, content, least, most)
    ensures Follow(read, content, 0, limits, 0).Some?
    ensures Covers(Follow(read, content, 0, limits, 0).value, content, least - 3)
  {
    FollowingReads(read, content, 0, limits, 0, least, most);
    assert content[0..] == content;
  }

  /** Both readers are good: the archive's on every well-formed content, the file reader on
      every file it reads at all. */
  lemma OutputPagesReconstruct(content: seq<Byte>, limits: nat -> nat, least: nat)
    requires Valid(content) && Allowed(limits, least, MAX_OUTPUT_PAGE)
    ensures Follow(OutputReader(content), content, 0, limits, 0).Some?
    ensures Covers(Follow(OutputReader(content), content, 0, limits, 0).value, content, least - 3)
  {
    OutputReaderIsGood(content, least);
    FollowingReconstructs(OutputReader(content), content, limits, least, MAX_OUTPUT_PAGE);
  }

  lemma FilePagesReconstruct(file: seq<Byte>, limits: nat -> nat, least: nat)
    requires TextError(file) == None && Allowed(limits, least, MAX_FILE_PAGE)
    ensures Follow(FileReader(file), file, 0, limits, 0).Some?
    ensures Covers(Follow(FileReader(file), file, 0, limits, 0).value, file, least - 3)
  {
    FileReaderIsGood(file, least);
    FollowingReconstructs(FileReader(file), file, limits, least, MAX_FILE_PAGE);
  }

  /** A page that was read is well-formed. */
  lemma ReadIsValid(content: seq<Byte>, offset: nat, limit: nat, next: nat)
    requires NextOutputPage(content, offset, limit) == Some(next)
    ensures offset <= next <= |content| && Valid(content[offset..next])
  {
    var window := content[offset..Min(offset + limit, |content|)];
    ValidUpToIsValid(window);
    assert window[..ValidUpTo(window)] == content[offset..next];
  }

  lemma {:induction false} FollowedIsValid(content: seq<Byte>, offset: nat, limits: nat -> nat, step: nat)
    requires offset <= |content| && Follow(OutputReader(content), content, offset, limits, step).Some?
    ensures Valid(content[offset..])
    decreases |content| - offset
  {
    if offset < |content| {
      var next := NextOutputPage(content, offset, limits(step)).value;
      FollowedIsValid(content, next, limits, step + 1);
      ReadIsValid(content, offset, limits(step), next);
      ValidConcat(content[offset..next], content[next..]);
      assert content[offset..] == content[offset..next] + content[next..];
    } else {
      assert content[offset..] == [];
    }
  }

  /** Following pages to the end succeeds exactly for well-formed content. */
  lemma OutputCompletesIffValid(content: seq<Byte>, limits: nat -> nat)
    requires Allowed(limits, 4, MAX_OUTPUT_PAGE)
    ensures Follow(OutputReader(content), content, 0, limits, 0).Some? <==> Valid(content)
  {
    assert content[0..] == content;
    if Valid(content) {
      OutputPagesReconstruct(content, limits, 4);
    } else if Follow(OutputReader(content), content, 0, limits, 0).Some? {
      FollowedIsValid(content, 0, limits, 0);
    }
  }

  /** The file reader is followed to the end exactly on well-formed files within its size. */
  lemma FileCompletesIffText(file: seq<Byte>, limits: nat -> nat)
    requires Allowed(limits, 4, MAX_FILE_PAGE)
    ensures Follow(FileReader(file), file, 0, limits, 0).Some? <==> TextError(file) == None
  {
    if TextError(file) == None {
      FilePagesReconstruct(file, limits, 4);
    }
  }
}

/** Replacing the one occurrence of a text in a file. */
module Patching {
  import opened Bytes
  import opened Wrappers
  import opened Characters
  import opened Utf8
  import opened Paging

  predicate Occurs(s: seq<Byte>, part: seq<Byte>, p: nat) {
    p + |part| <= |s| && s[p..p + |part|] == part
  }

  /** The first occurrence from a position on. */
  method Find(s: seq<Byte>, part: seq<Byte>, from: nat) returns (found: Option<nat>)
    requires from <= |s|
    ensures found.Some? ==> from <= found.value && Occurs(s, part, found.value)
    ensures forall p :: from <= p && (found.Some? ==> p < found.value) ==> !Occurs(s, part, p)
  {
    var p := from;
    while p + |part| <= |s|
      invariant from <= p && forall q :: from <= q < p ==> !Occurs(s, part, q)
    {
      if s[p..p + |part|] == part {
        return Some(p);
      }
      p := p + 1;
    }
    found := None;
  }

  ghost predicate OnlyAt(s: seq<Byte>, part: seq<Byte>, p: nat) {
    Occurs(s, part, p) && forall q: nat :: Occurs(s, part, q) ==> q == p
  }

  datatype PatchError = BadSize | Unreadable(error: ReadError) | NotFound | Ambiguous | ResultTooLarge

  function Patched(before: seq<Byte>, part: seq<Byte>, replacement: seq<Byte>, p: nat): seq<Byte>
    requires Occurs(before, part, p)
  {
    before[..p] + (replacement + before[p + |part|..])
  }

  /** There is exactly one occurrence, and replacing it keeps the file within its limit. */
  ghost predicate Fits(file: seq<Byte>, part: seq<Byte>, replacement: seq<Byte>) {
    exists p :: OnlyAt(file, part, p) && |Patched(file, part, replacement, p)| <= MAX_FILE_BYTES
  }

  ghost predicate Results(file: seq<Byte>, part: seq<Byte>, replacement: seq<Byte>, after: seq<Byte>) {
    exists p :: OnlyAt(file, part, p) && after == Patched(file, part, replacement, p)
  }

  predicate SizesAllowed(part: seq<Byte>, replacement: seq<Byte>) {
    part != [] && |part| <= MAX_FILE_BYTES && |replacement| <= MAX_FILE_BYTES
  }

  /** Two occurrences never start inside the same character. */
  lemma OccurrencesAreApart(s: seq<Byte>, part: seq<Byte>, p: nat, q: nat)
    requires Valid(s) && Valid(part) && part != [] && Occurs(s, part, p) && Occurs(s, part, q) && p < q
    ensures CharLength(s[p..]) > 0 && q >= p + CharLength(s[p..])
  {
    Aligned(s, part, p);
    Aligned(s, part, q);
    MeasureIsLawful();
    BoundaryCuts(s, p);
    var c, rest := SplitChars(CharLength, BreaksOff, s[p..]);
    BoundaryBehind(CharLength, BreaksOff, c, rest, q - p);
    assert s[p..][q - p] == s[q];
    assert Stands(CharLength, c, rest);
  }

  lemma Aligned(s: seq<Byte>, part: seq<Byte>, p: nat)
    requires Valid(s) && Valid(part) && part != [] && Occurs(s, part, p)
    ensures Boundary(s, p) && Valid(s[..p]) && Valid(s[p + |part|..])
  {
    assert s == s[..p] + (part + s[p + |part|..]);
    OccurrenceIsAligned(s[..p], part, s[p + |part|..]);
  }

  /** A patched text is a text again. */
  lemma PatchedIsValid(before: seq<Byte>, part: seq<Byte>, replacement: seq<Byte>, p: nat)
    requires Valid(before) && Valid(part) && part != [] && Valid(replacement) && Occurs(before, part, p)
    ensures Valid(Patched(before, part, replacement, p))
  {
    Aligned(before, part, p);
    ValidConcat(replacement, before[p + |part|..]);
    ValidConcat(before[..p], replacement + before[p + |part|..]);
  }

  /** Prepares a patch: the search for a second occurrence starts one character behind the
      first, so that overlapping ones count too. */
  method PreparePatch(file: seq<Byte>, part: seq<Byte>, replacement: seq<Byte>)
    returns (after: Result<seq<Byte>, PatchError>)
    requires Valid(part) && Valid(replacement)
    ensures after.Ok? <==> SizesAllowed(part, replacement) && TextError(file) == None && Fits(file, part, replacement)
    ensures after.Ok? ==> Valid(after.value) && Results(file, part, replacement, after.value)
    ensures after == Err(NotFound) ==> forall p: nat :: !Occurs(file, part, p)
    ensures after == Err(Ambiguous) ==> exists p: nat, q: nat :: p < q && Occurs(file, part, p) && Occurs(file, part, q)
  {
    if !SizesAllowed(part, replacement) {
      return Err(BadSize);
    }
    var unreadable := TextError(file);
    if unreadable.Some? {
      return Err(Unreadable(unreadable.value));
    }
    var start := Find(file, part, 0);
    if start.None? {
      return Err(NotFound);
    }
    var p := start.value;
    Aligned(file, part, p);
    BoundaryCuts(file, p);
    MeasureIsLawful();
    assert Chars(CharLength, file[p..]) && file[p..] != [];
    var next := p + CharLength(file[p..]);
    var second := Find(file, part, next);
    if second.Some? {
      assert Occurs(file, part, p) && Occurs(file, part, second.value);
      return Err(Ambiguous);
    }
    forall q: nat | Occurs(file, part, q) ensures q == p {
      if q > p {
        OccurrencesAreApart(file, part, p, q);
      }
    }
    assert OnlyAt(file, part, p);
    var patched := Patched(file, part, replacement, p);
    assert Results(file, part, replacement, patched);
    if |patched| > MAX_FILE_BYTES {
      return Err(ResultTooLarge);
    }
    PatchedIsValid(file, part, replacement, p);
    after := Ok(patched);
  }

  // ---- Executing a patch ----

  class File {
    var bytes: seq<Byte>

    constructor (bytes: seq<Byte>)
      ensures this.bytes == bytes
    {
      this.bytes := bytes;
    }

    /** Overwrites from the start, in pieces of any size, and may fail between two. */
    method WriteAll(data: seq<Byte>) returns (ok: bool)
      modifies this
      ensures ok ==> bytes == Overwritten(old(bytes), data, |data|)
      ensures !ok ==> PartlyWritten(old(bytes), data, bytes)
    {
      var n := 0;
      assert bytes == Overwritten(bytes, data, 0);
      while n < |data|
        invariant 0 <= n <= |data| && bytes == Overwritten(old(bytes), data, n)
        decreases |data| - n
      {
        var piece: nat, failed: bool := *, *;
        if failed || piece == 0 {
          return false;
        }
        var m := Min(n + piece, |data|);
        OverwriteMore(old(bytes), data, n, m);
        bytes := Overwritten(bytes, data, m);
        n := m;
      }
      ok := true;
    }

    method SetLength(n: nat) returns (ok: bool)
      requires n <= |bytes|
      modifies this
      ensures bytes == if ok then old(bytes)[..n] else old(bytes)
    {
      ok := *;
      if ok {
        bytes := bytes[..n];
      }
    }
  }

  /** A file whose first `k` bytes were overwritten with those of `data`. */
  function Overwritten(before: seq<Byte>, data: seq<Byte>, k: nat): seq<Byte>
    requires k <= |data|
  {
    data[..k] + if k < |before| then before[k..] else []
  }

  predicate PartlyWritten(before: seq<Byte>, data: seq<Byte>, now: seq<Byte>) {
    exists k :: 0 <= k <= |data| && now == Overwritten(before, data, k)
  }

  lemma OverwriteMore(before: seq<Byte>, data: seq<Byte>, n: nat, m: nat)
    requires n <= m <= |data|
    ensures Overwritten(Overwritten(before, data, n), data, m) == Overwritten(before, data, m)
  {
    var part := Overwritten(before, data, n);
    if m < |before| {
      assert part[m..] == before[m..];
    }
  }

  datatype PatchOutcome = Done(written: nat) | Cancelled | Conflict | CannotRead(error: ReadError) | OutcomeUnknown

  /** Writes the prepared text over a file that is still what it was prepared from. */
  method ExecutePatch(file: File, before: seq<Byte>, after: seq<Byte>) returns (outcome: PatchOutcome)
    modifies file
    ensures outcome.Done? ==> old(file.bytes) == before && file.bytes == after && outcome.written == |after|
    ensures !outcome.Done? && outcome != OutcomeUnknown ==> file.bytes == old(file.bytes)
    ensures old(file.bytes) != before ==> !outcome.Done? && file.bytes == old(file.bytes)
    ensures outcome == OutcomeUnknown ==> PartlyWritten(before, after, file.bytes) || file.bytes == after
  {
    var cancelled: bool := *;
    if cancelled {
      return Cancelled;
    }
    var unreadable := TextError(file.bytes);
    if unreadable.Some? {
      return CannotRead(unreadable.value);
    }
    if file.bytes != before {
      return Conflict;
    }
    cancelled := *;
    if cancelled {
      return Cancelled;
    }
    var ok := file.WriteAll(after);
    if !ok {
      return OutcomeUnknown;
    }
    ok := file.SetLength(|after|);
    if !ok {
      return OutcomeUnknown;
    }
    assert file.bytes == after;
    var synced: bool := *;
    outcome := if synced then Done(|after|) else OutcomeUnknown;
  }
}
