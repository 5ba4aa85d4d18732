/** The lines of a file of bytes, and the iterator that finds them whatever sizes its reads have. */
module EscrowLines {
  import opened Utf16
  import opened Options
  import opened Utf8
  import opened EscrowStages

  const NEWLINE_BYTE: Byte := 0x0A

  const MAX_LINE_BYTES: int := HARD_LIMITS.lineBytes

  const HARD_FILE_BYTES: int := HARD_LIMITS.totalBytes + HARD_LIMITS.records + 2

  const CHUNK_BYTES: int := 65536

  datatype Item<+T> = Next(value: T) | Done | Failure

  function FirstNewline(b: Bytes): (i: nat)
    ensures i <= |b| && NEWLINE_BYTE !in b[..i] && (i < |b| ==> b[i] == NEWLINE_BYTE)
  {
    if b == [] || b[0] == NEWLINE_BYTE then 0
    else
      var i := 1 + FirstNewline(b[1..]);
      assert b[..i] == [b[0]] + b[1..][..i - 1];
      i
  }

  /** What comes next of the unread part of a file. */
  function NextLine(rest: Bytes): Item<Bytes> {
    var i := FirstNewline(rest);
    if i < |rest| && i <= MAX_LINE_BYTES then Next(rest[..i])
    else if rest == [] then Done
    else Failure
  }

  function AfterLine(rest: Bytes): Bytes
    requires NextLine(rest).Next?
  {
    rest[|NextLine(rest).value| + 1..]
  }

  /** The lines of a file, when it can be split into lines. */
  function Split(file: Bytes): Option<seq<Bytes>>
    decreases |file|
  {
    match NextLine(file)
    case Next(line) => var more :- Split(AfterLine(file)); Some([line] + more)
    case Done => Some([])
    case Failure => None
  }

  // ---------- splitting is the inverse of writing lines

  function Unsplit(lines: seq<Bytes>): Bytes {
    if lines == [] then [] else lines[0] + ([NEWLINE_BYTE] + Unsplit(lines[1..]))
  }

  ghost predicate AreLines(lines: seq<Bytes>) {
    forall i :: 0 <= i < |lines| ==> NEWLINE_BYTE !in lines[i] && |lines[i]| <= MAX_LINE_BYTES
  }

  lemma {:induction false} FirstNewlineIs(b: Bytes, i: nat)
    requires i <= |b| && NEWLINE_BYTE !in b[..i] && (i < |b| ==> b[i] == NEWLINE_BYTE)
    ensures FirstNewline(b) == i
  {
    var j := FirstNewline(b);
    assert forall k :: 0 <= k < i ==> b[..i][k] == b[k] && b[k] in b[..i];
    assert forall k :: 0 <= k < j ==> b[..j][k] == b[k] && b[k] in b[..j];
  }

  lemma NextOfLine(line: Bytes, rest: Bytes)
    requires NEWLINE_BYTE !in line && |line| <= MAX_LINE_BYTES
    ensures NextLine(line + ([NEWLINE_BYTE] + rest)) == Next(line) && AfterLine(line + ([NEWLINE_BYTE] + rest)) == rest
  {
    var b := line + ([NEWLINE_BYTE] + rest);
    assert b[..|line|] == line;
    FirstNewlineIs(b, |line|);
  }

  lemma {:induction false} SplitUnsplit(lines: seq<Bytes>)
    requires AreLines(lines)
    ensures Split(Unsplit(lines)) == Some(lines)
  {
    hide NextLine, AfterLine;
    if lines != [] {
      var more := lines[1..];
      assert forall i :: 0 <= i < |more| ==> more[i] == lines[i + 1];
      NextOfLine(lines[0], Unsplit(more));
      SplitUnsplit(more);
      assert lines == [lines[0]] + more;
    } else {
      NextOfNothing();
    }
  }

  lemma {:induction false} UnsplitSplit(file: Bytes)
    requires Split(file).Some?
    ensures AreLines(Split(file).value) && Unsplit(Split(file).value) == file
    decreases |file|
  {
    hide NextLine, AfterLine, AreLines;
    NextLineSound(file);
    match NextLine(file)
    case Next(line) =>
      UnsplitSplit(AfterLine(file));
      var more := Split(AfterLine(file)).value;
      assert Split(file).value == [line] + more && ([line] + more)[1..] == more;
      AreLinesCons(line, more);
    case Done => assert AreLines([]) by { AreNoLines(); }
  }

  lemma AreNoLines()
    ensures AreLines([])
  {
  }

  lemma AreLinesCons(line: Bytes, more: seq<Bytes>)
    ensures AreLines([line] + more) <==> NEWLINE_BYTE !in line && |line| <= MAX_LINE_BYTES && AreLines(more)
  {
    var all := [line] + more;
    assert all[0] == line && all[1..] == more;
    assert forall i :: 0 <= i < |more| ==> all[i + 1] == more[i];
  }

  lemma NextOfNothing()
    ensures NextLine([]) == Done
  {
  }

  lemma NextLineSound(rest: Bytes)
    ensures NextLine(rest).Next? ==>
            var line := NextLine(rest).value;
            NEWLINE_BYTE !in line && |line| <= MAX_LINE_BYTES && rest == line + ([NEWLINE_BYTE] + AfterLine(rest))
    ensures NextLine(rest).Done? ==> rest == []
  {
  }

  /** A file has at most one reading as lines, and Split finds it. */
  lemma {:induction false} SplitExact(file: Bytes, lines: seq<Bytes>)
    ensures Split(file) == Some(lines) <==> AreLines(lines) && Unsplit(lines) == file
  {
    if Split(file) == Some(lines) { UnsplitSplit(file); }
    if AreLines(lines) { SplitUnsplit(lines); }
  }

  // ---------- reading in chunks

  lemma NextOfUnread(pending: Bytes, unread: Bytes)
    requires NEWLINE_BYTE !in pending
    ensures |pending| > MAX_LINE_BYTES || (unread == [] && pending != []) ==> NextLine(pending + unread).Failure?
    ensures pending == [] && unread == [] ==> NextLine(pending + unread).Done?
  {
    assert forall i :: 0 <= i < |pending| ==> (pending + unread)[i] == pending[i] && pending[i] in pending;
  }

  lemma NextInCombined(combined: Bytes, start: nat, index: nat, unread: Bytes)
    requires start <= index < |combined| && combined[index] == NEWLINE_BYTE && NEWLINE_BYTE !in combined[start..index]
    ensures var rest := combined[start..] + unread;
            if index - start > MAX_LINE_BYTES then NextLine(rest).Failure?
            else NextLine(rest) == Next(combined[start..index]) && AfterLine(rest) == combined[index + 1..] + unread
  {
    var rest := combined[start..] + unread;
    assert rest[..index - start] == combined[start..index];
    FirstNewlineIs(rest, index - start);
    assert rest[index - start + 1..] == combined[index + 1..] + unread;
  }

  /** `iterateEscrowFileLines` on a file whose bytes do not change. Every read returns at least one
      byte and at most a chunk; which number it is, is left open. */
  class LineIterator {
    const file: Bytes
    var combined: Bytes
    var start: nat
    var position: nat
    var totalBytes: nat

    ghost predicate Valid()
      reads this
    {
      start <= |combined| && totalBytes == position <= |file| <= HARD_FILE_BYTES
    }

    /** The bytes not handed out yet. */
    ghost function Rest(): Bytes
      requires Valid()
      reads this
    {
      combined[start..] + file[position..]
    }

    constructor (file: Bytes)
      requires |file| <= HARD_FILE_BYTES
      ensures Valid() && Rest() == file && this.file == file
    {
      this.file, combined, start, position, totalBytes := file, [], 0, 0, 0;
      new;
      assert [] + file[0..] == file;
    }

    method FindNewline() returns (index: nat)
      requires Valid()
      ensures start <= index <= |combined| && NEWLINE_BYTE !in combined[start..index]
      ensures index < |combined| ==> combined[index] == NEWLINE_BYTE
    {
      index := start;
      while index < |combined| && combined[index] != NEWLINE_BYTE
        invariant start <= index <= |combined| && NEWLINE_BYTE !in combined[start..index]
      {
        assert combined[start..index + 1] == combined[start..index] + [combined[index]];
        index := index + 1;
      }
    }

    /** Appends the next chunk of the file to what is left of the one before. */
    method ReadChunk(pending: Bytes) returns (ok: bool)
      requires Valid() && pending == combined[start..] && position < |file|
      modifies this
      ensures ok && Valid() && Rest() == old(Rest()) && position > old(position)
    {
      var bytesRead: nat :| 1 <= bytesRead <= CHUNK_BYTES && position + bytesRead <= |file|;
      var chunk := file[position..position + bytesRead];
      position := position + bytesRead;
      totalBytes := totalBytes + bytesRead;
      if totalBytes > HARD_FILE_BYTES { return false; }
      ghost var before := file[position - bytesRead..];
      assert before == chunk + file[position..];
      combined := pending + chunk;
      start := 0;
      assert combined[0..] + file[position..] == pending + before;
      ok := true;
    }

    method Advance() returns (item: Item<Bytes>)
      requires Valid()
      modifies this
      ensures Valid() && item == NextLine(old(Rest()))
      ensures item.Next? ==> Rest() == AfterLine(old(Rest()))
      ensures !item.Next? ==> Rest() == old(Rest())
    {
      ghost var rest := Rest();
      while true
        invariant Valid() && Rest() == rest
        decreases |file| - position
      {
        var index := FindNewline();
        if index < |combined| {
          NextInCombined(combined, start, index, file[position..]);
          var line := combined[start..index];
          if |line| > MAX_LINE_BYTES { return Failure; }
          start := index + 1;
          return Next(line);
        }
        var pending := combined[start..];
        NextOfUnread(pending, file[position..]);
        if |pending| > MAX_LINE_BYTES { return Failure; }
        if position == |file| {
          return if pending == [] then Done else Failure;
        }
        var ok := ReadChunk(pending);
        if !ok { return Failure; }
      }
    }
  }
}
