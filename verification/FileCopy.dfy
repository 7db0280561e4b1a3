/** The chunked copy of 05_Day05/99_Homework_file_copy/file_copy.c. The kernel decides how many bytes each read and
    write moves; the destination is opened without truncation. */
module FileCopy {

  const SIZE: nat := 512

  newtype byte = x: int | 0 <= x < 256

  /** An open regular file: its bytes and the position of the descriptor. */
  class OpenFile {
    var content: seq<byte>
    var offset: nat

    constructor (content: seq<byte>)
      ensures this.content == content && offset == 0
    {
      this.content, offset := content, 0;
    }
  }

  /** `after` is `before` with `data` written at `at`: what lies beyond stays. */
  predicate Overwritten(before: seq<byte>, at: nat, data: seq<byte>, after: seq<byte>) {
    && at <= |before|
    && |after| == (if at + |data| < |before| then |before| else at + |data|)
    && forall i | 0 <= i < |after| :: after[i] == if at <= i < at + |data| then data[i - at] else before[i]
  }

  /** The bytes from position `n` on, if there are any. */
  function Beyond(content: seq<byte>, n: nat): seq<byte> {
    if n < |content| then content[n..] else []
  }

  lemma WrittenOver(before: seq<byte>, data: seq<byte>, after: seq<byte>)
    requires Overwritten(before, 0, data, after)
    ensures after == data + Beyond(before, |data|)
  {
  }

  lemma OverwrittenTwice(base: seq<byte>, written: seq<byte>, before: seq<byte>, chunk: seq<byte>, after: seq<byte>)
    requires Overwritten(base, 0, written, before) && Overwritten(before, |written|, chunk, after)
    ensures Overwritten(base, 0, written + chunk, after)
  {
  }

  /** How many bytes the kernel is ready to move at the n-th read() and write(); a negative number is an error. */
  datatype Kernel = Kernel(read: nat -> int, write: nat -> int)

  /** read() of at most SIZE bytes with `left` bytes before the end of the file: an error, 0 only at the end, or any
      number of bytes that fits. */
  function ReadRet(wish: int, left: nat): (ret: int)
    ensures -1 <= ret <= SIZE && ret <= left && (ret == 0 ==> left == 0)
    ensures wish == -1 || (0 < wish <= 512 && wish <= left) ==> ret == wish
  {
    if wish < 0 then -1
    else
      var most := if left < SIZE then left else SIZE;
      if wish < most then (if wish == 0 then 1 else wish) else most
  }

  /** write() of `count` bytes: an error, or any number of them. */
  function WriteRet(wish: int, count: nat): (ret: int)
    ensures -1 <= ret <= count
    ensures -1 <= wish <= count ==> ret == wish
  {
    if wish < 0 then -1 else if wish < count then wish else count
  }

  method Read(file: OpenFile, buffer: array<byte>, wish: int) returns (ret: int)
    requires file.offset <= |file.content| && buffer.Length == SIZE
    modifies file`offset, buffer
    ensures ret == ReadRet(wish, |file.content| - old(file.offset))
    ensures file.offset == old(file.offset) + (if ret > 0 then ret else 0) <= |file.content|
    ensures forall i | 0 <= i < ret :: buffer[i] == file.content[old(file.offset) + i]
  {
    ret := ReadRet(wish, |file.content| - file.offset);
    if ret > 0 {
      var at := file.offset;
      forall i | 0 <= i < ret {
        buffer[i] := file.content[at + i];
      }
      file.offset := at + ret;
    }
  }

  method Write(file: OpenFile, buffer: array<byte>, count: nat, wish: int) returns (ret: int)
    requires file.offset <= |file.content| && count <= buffer.Length
    modifies file
    ensures ret == WriteRet(wish, count)
    ensures ret <= 0 ==> unchanged(file)
    ensures ret > 0 ==>
      && Overwritten(old(file.content), old(file.offset), buffer[..ret], file.content)
      && file.offset == old(file.offset) + ret
  {
    ret := WriteRet(wish, count);
    if ret > 0 {
      var end := file.offset + ret;
      file.content := file.content[..file.offset] + buffer[..ret] + Beyond(file.content, end);
      file.offset := end;
    }
  }

  // ---- The turns of the loop, as the kernel's answers decide them ----

  /** The position in the source, the bytes written, and whether the loop has been left. */
  datatype Progress = Progress(at: nat, written: seq<byte>, stopped: bool)

  /** Lines 38-50. */
  function Turn(kernel: Kernel, content: seq<byte>, n: nat, p: Progress): (q: Progress)
    requires p.at <= |content|
    ensures q.at <= |content|
  {
    var got := ReadRet(kernel.read(n), |content| - p.at);
    if got <= 0 then p.(stopped := true)
    else
      var put := WriteRet(kernel.write(n), got);
      if put <= 0 then Progress(p.at + got, p.written, true)
      else Progress(p.at + got, p.written + content[p.at..p.at + put], false)
  }

  function After(kernel: Kernel, content: seq<byte>, turns: nat): (p: Progress)
    ensures p.at <= |content|
  {
    if turns == 0 then Progress(0, [], false)
    else
      var p := After(kernel, content, turns - 1);
      if p.stopped then p else Turn(kernel, content, turns - 1, p)
  }

  // ---- Which answers make a complete copy ----

  /** The position before the n-th read() if all n reads before it are made: their results alone decide it. */
  function Position(kernel: Kernel, size: nat, n: nat): (at: nat)
    ensures at <= size
  {
    if n == 0 then 0
    else
      var at := Position(kernel, size, n - 1);
      var got := ReadRet(kernel.read(n - 1), size - at);
      if got > 0 then at + got else at
  }

  /** The n-th write() takes all that the n-th read() has got, or there is nothing left to get; and the read does not
      fail before the end of the file. */
  predicate FullAt(kernel: Kernel, size: nat, n: nat) {
    var at := Position(kernel, size, n);
    at == size || 0 < ReadRet(kernel.read(n), size - at) <= kernel.write(n)
  }

  predicate FullUpTo(kernel: Kernel, size: nat, turns: nat) {
    forall n: nat | n < turns :: FullAt(kernel, size, n)
  }

  lemma FullNext(kernel: Kernel, size: nat, turns: nat)
    ensures FullUpTo(kernel, size, turns + 1) <==> FullUpTo(kernel, size, turns) && FullAt(kernel, size, turns)
  {
  }

  /** While all answers are full the bytes read are the bytes written, and the loop is left only at the end; after one
      that is not, bytes are missing for good. */
  predicate Accounted(content: seq<byte>, p: Progress, full: bool) {
    && |p.written| <= p.at <= |content|
    && if full then p.written == content[..p.at] && (p.stopped ==> p.at == |content|)
       else |p.written| < p.at || (p.stopped && p.at < |content|)
  }

  lemma TurnAccounted(kernel: Kernel, content: seq<byte>, n: nat, p: Progress, full: bool)
    requires Accounted(content, p, full) && !p.stopped && (full ==> p.at == Position(kernel, |content|, n))
    ensures var q, still := Turn(kernel, content, n, p), full && FullAt(kernel, |content|, n);
      Accounted(content, q, still) && (still ==> q.at == Position(kernel, |content|, n + 1))
  {
    var q := Turn(kernel, content, n, p);
    if full && !q.stopped {
      var put := |q.written| - |p.written|;
      assert content[..p.at] + content[p.at..p.at + put] == content[..p.at + put];
    }
  }

  lemma {:induction false} AllAccounted(kernel: Kernel, content: seq<byte>, turns: nat)
    ensures var p, full := After(kernel, content, turns), FullUpTo(kernel, |content|, turns);
      Accounted(content, p, full) && (full ==> p.at == Position(kernel, |content|, turns))
  {
    if turns > 0 {
      var n := turns - 1;
      var p := After(kernel, content, n);
      AllAccounted(kernel, content, n);
      FullNext(kernel, |content|, n);
      if !p.stopped {
        TurnAccounted(kernel, content, n, p, FullUpTo(kernel, |content|, n));
      }
    }
  }

  lemma {:induction false} FullAtTheEnd(kernel: Kernel, size: nat, turns: nat, n: nat)
    requires turns <= n && Position(kernel, size, turns) == size
    ensures Position(kernel, size, n) == size && FullAt(kernel, size, n)
    decreases n
  {
    if n > turns {
      FullAtTheEnd(kernel, size, turns, n - 1);
    }
  }

  /** The loop retries nothing: when it has been left, the bytes written are those of the source if and only if no
      answer of the kernel was short. The condition is one on the answers alone. */
  lemma CompleteIff(kernel: Kernel, content: seq<byte>, turns: nat)
    requires After(kernel, content, turns).stopped
    ensures After(kernel, content, turns).written == content <==> forall n: nat :: FullAt(kernel, |content|, n)
    ensures After(kernel, content, turns).written != content ==> |After(kernel, content, turns).written| < |content|
  {
    AllAccounted(kernel, content, turns);
    assert content[..|content|] == content;
    if FullUpTo(kernel, |content|, turns) {
      forall n: nat
        ensures FullAt(kernel, |content|, n)
      {
        if n >= turns {
          FullAtTheEnd(kernel, |content|, turns, n);
        }
      }
    }
  }

  /** The loop does not end with the n-th turn before everything is read. */
  predicate MovesAt(kernel: Kernel, size: nat, n: nat) {
    Position(kernel, size, n) == size
    || (kernel.read(n) >= 0 && (kernel.write(n) > 0 || Position(kernel, size, n + 1) == size))
  }

  predicate MovesUpTo(kernel: Kernel, size: nat, turns: nat) {
    forall n: nat | n < turns :: MovesAt(kernel, size, n)
  }

  lemma MovesNext(kernel: Kernel, size: nat, turns: nat)
    ensures MovesUpTo(kernel, size, turns + 1) <==> MovesUpTo(kernel, size, turns) && MovesAt(kernel, size, turns)
  {
  }

  lemma TurnMoves(kernel: Kernel, content: seq<byte>, n: nat, p: Progress)
    requires p.at == Position(kernel, |content|, n) && !p.stopped
    ensures var q, size := Turn(kernel, content, n, p), |content|;
      if MovesAt(kernel, size, n) then q.at == Position(kernel, size, n + 1) && (q.stopped ==> q.at == size)
      else q.stopped && q.at < size
  {
  }

  lemma {:induction false} MovesWhileReading(kernel: Kernel, content: seq<byte>, turns: nat)
    ensures var p, size := After(kernel, content, turns), |content|;
      if MovesUpTo(kernel, size, turns) then p.at == Position(kernel, size, turns) && (p.stopped ==> p.at == size)
      else p.stopped && p.at < size
  {
    if turns > 0 {
      var n := turns - 1;
      var p := After(kernel, content, n);
      MovesWhileReading(kernel, content, n);
      MovesNext(kernel, |content|, n);
      if !p.stopped {
        TurnMoves(kernel, content, n, p);
      } else if p.at == |content| {
        FullAtTheEnd(kernel, |content|, n, turns);
      }
    }
  }

  /** Short writes do not keep the reading from its end, only failures do: it gets there if and only if no read fails
      and no write moves nothing before that. */
  lemma EndReachedIff(kernel: Kernel, content: seq<byte>, turns: nat)
    requires After(kernel, content, turns).stopped
    ensures After(kernel, content, turns).at == |content| <==> forall n: nat :: MovesAt(kernel, |content|, n)
  {
    MovesWhileReading(kernel, content, turns);
    if After(kernel, content, turns).at == |content| {
      forall n: nat
        ensures MovesAt(kernel, |content|, n)
      {
        if n >= turns {
          FullAtTheEnd(kernel, |content|, turns, n);
        }
      }
    }
  }

  /** One short write in the first turn, everything else full: of three bytes one arrives. */
  lemma ShortWriteLosesBytes() returns (kernel: Kernel)
    ensures After(kernel, [1, 2, 3], 2) == Progress(3, [1], true)
    ensures !FullAt(kernel, 3, 0) && forall n: nat | n > 0 :: FullAt(kernel, 3, n)
  {
    kernel := Kernel(n => SIZE, n => if n == 0 then 1 else SIZE);
    var content: seq<byte> := [1, 2, 3];
    assert After(kernel, content, 1) == Turn(kernel, content, 0, After(kernel, content, 0));
    assert content[0..1] == [1];
    forall n: nat | n > 0
      ensures FullAt(kernel, 3, n)
    {
      assert Position(kernel, 3, 1) == 3;
      FullAtTheEnd(kernel, 3, 1, n);
    }
  }

  /** The loop ends: every turn but the last moves the position on. */
  lemma {:induction false} StopsWithin(kernel: Kernel, content: seq<byte>, turns: nat)
    ensures After(kernel, content, turns).stopped || turns <= After(kernel, content, turns).at
  {
    if turns > 0 {
      StopsWithin(kernel, content, turns - 1);
    }
  }

  lemma {:induction false} WholeChunks(kernel: Kernel, content: seq<byte>, turns: nat)
    requires forall n: nat :: kernel.read(n) >= 512 && kernel.write(n) >= 512
    ensures var p := After(kernel, content, turns);
      if 512 * turns >= |content| + 512 then p.stopped
      else !p.stopped && p.at == if 512 * turns < |content| then 512 * turns else |content|
  {
    if turns > 0 {
      WholeChunks(kernel, content, turns - 1);
    }
  }

  /** Undisturbed, the loop takes one turn for every 512 bytes begun, and one to see the end. */
  lemma TurnsOfACopy(kernel: Kernel, content: seq<byte>, turns: nat)
    requires forall n: nat :: kernel.read(n) >= 512 && kernel.write(n) >= 512
    ensures After(kernel, content, turns).stopped <==> turns >= (|content| + 511) / 512 + 1
    ensures turns >= (|content| + 511) / 512 + 1 ==> After(kernel, content, turns).written == content
  {
    WholeChunks(kernel, content, turns);
    if After(kernel, content, turns).stopped {
      forall n: nat
        ensures FullAt(kernel, |content|, n)
      {
      }
      CompleteIff(kernel, content, turns);
    }
  }

  // ---- The copy on open files ----

  /** Lines 38-50 on the files. */
  method CopyChunk(src: OpenFile, dest: OpenFile, buffer: array<byte>, readWish: int, writeWish: int)
      returns (ret: int, retWrite: int)
    requires src != dest && src.offset <= |src.content| && dest.offset <= |dest.content| && buffer.Length == SIZE
    modifies src`offset, dest, buffer
    ensures ret == ReadRet(readWish, |src.content| - old(src.offset))
    ensures src.offset == old(src.offset) + (if ret > 0 then ret else 0) <= |src.content|
    ensures retWrite == if ret > 0 then WriteRet(writeWish, ret) else -1
    ensures if retWrite <= 0 then unchanged(dest) else
      && Overwritten(old(dest.content), old(dest.offset),
                     src.content[old(src.offset)..old(src.offset) + retWrite], dest.content)
      && dest.offset == old(dest.offset) + retWrite
  {
    retWrite := -1;
    ret := Read(src, buffer, readWish);
    if ret > 0 {
      retWrite := Write(dest, buffer, ret, writeWish);
      if retWrite > 0 {
        assert buffer[..retWrite] == src.content[old(src.offset)..old(src.offset) + retWrite];
      }
    }
  }

  /** The files are where `p` says: `p.written` has been put over `base`. */
  ghost predicate FilesAt(src: OpenFile, dest: OpenFile, base: seq<byte>, p: Progress)
    reads src, dest
  {
    src.offset == p.at && dest.offset == |p.written| && Overwritten(base, 0, p.written, dest.content)
  }

  /** The n-th turn of the loop. */
  method CopyTurn(src: OpenFile, dest: OpenFile, buffer: array<byte>, kernel: Kernel, n: nat, ghost base: seq<byte>)
      returns (ret: int, retWrite: int)
    requires src != dest && FilesAt(src, dest, base, After(kernel, src.content, n)) && buffer.Length == SIZE
    requires !After(kernel, src.content, n).stopped
    modifies src`offset, dest, buffer
    ensures FilesAt(src, dest, base, After(kernel, src.content, n + 1))
    ensures After(kernel, src.content, n + 1).stopped <==> ret <= 0 || retWrite <= 0
    ensures ret > 0 ==> src.offset > old(src.offset)
  {
    ghost var content, before := src.content, dest.content;
    ghost var p, q := After(kernel, content, n), After(kernel, content, n + 1);
    assert q == Turn(kernel, content, n, p);
    ret, retWrite := CopyChunk(src, dest, buffer, kernel.read(n), kernel.write(n));
    if retWrite > 0 {
      OverwrittenTwice(base, p.written, before, content[p.at..p.at + retWrite], dest.content);
      assert q.written == p.written + content[p.at..p.at + retWrite];
    } else {
      assert q.written == p.written;
    }
  }

  /** Lines 36-51. The loop runs until a turn moves nothing, and leaves the bytes it has written over the old bytes
      of the destination. */
  method CopyLoop(src: OpenFile, dest: OpenFile, kernel: Kernel) returns (turns: nat)
    requires src != dest && src.offset == 0 && dest.offset == 0
    modifies src`offset, dest
    ensures After(kernel, src.content, turns).stopped
    ensures FilesAt(src, dest, old(dest.content), After(kernel, src.content, turns))
  {
    var buffer := new byte[SIZE](_ => 0);
    turns := 0;
    ghost var base := dest.content;
    while true
      invariant !After(kernel, src.content, turns).stopped
      invariant FilesAt(src, dest, base, After(kernel, src.content, turns))
      decreases |src.content| - src.offset
    {
      var ret, retWrite := CopyTurn(src, dest, buffer, kernel, turns, base);
      turns := turns + 1;
      if ret <= 0 {
        break;
      }
      if retWrite <= 0 {
        break;
      }
    }
  }

  datatype Which = Src | Dest

  /** main: NULL stands for a file that cannot be opened. `closes` lists the descriptors passed to close(): the labels
      err2 and err1 follow the success path, so that the source is closed twice and the result is 1 in every case,
      also after a complete copy. */
  method Copy(argc: int, src: OpenFile?, dest: OpenFile?, kernel: Kernel)
      returns (code: int, turns: nat, closes: seq<Which>)
    requires src != null ==> src.offset == 0
    requires dest != null ==> dest != src && dest.offset == 0
    modifies if src != null then {src} else {}, if dest != null then {dest} else {}
    ensures code == 1
    ensures closes == if argc != 3 || src == null then [] else if dest == null then [Src] else [Src, Dest, Src]
    ensures argc != 3 || src == null || dest == null ==>
      (src != null ==> unchanged(src)) && (dest != null ==> unchanged(dest))
    ensures argc == 3 && src != null && dest != null ==>
      var p := After(kernel, src.content, turns);
      && p.stopped && src.content == old(src.content) && FilesAt(src, dest, old(dest.content), p)
      && (p.written == src.content <==> forall n: nat :: FullAt(kernel, |src.content|, n))
    ensures argc == 3 && src != null && dest != null && (forall n: nat :: FullAt(kernel, |src.content|, n)) ==>
      dest.content == src.content + Beyond(old(dest.content), |src.content|)
  {
    turns, closes := 0, [];
    if argc != 3 {
      return 1, turns, closes;
    }
    label Err1: {
      label Err2: {
        if src == null {
          break Err1;
        }
        if dest == null {
          break Err2;
        }
        turns := CopyLoop(src, dest, kernel);
        CompleteIff(kernel, src.content, turns);
        if forall n: nat :: FullAt(kernel, |src.content|, n) {
          WrittenOver(old(dest.content), src.content, dest.content);
        }
        closes := [Src, Dest];
      }
      closes := closes + [Src];
    }
    code := 1;
  }
}
