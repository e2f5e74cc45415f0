/** The length-bounded download body (internal/storage/client.go). */
module BoundedReader {
  import opened Prelude
  import opened Domain

  datatype Status = More | Eof | Failed | TooLarge

  /** How the underlying body answers one read: at most how many bytes it hands
      over, whether it reports the end as soon as it is reached, and whether the
      connection breaks. */
  datatype Answer = Answer(chunk: nat, eager: bool, broken: bool)

  /** How many bytes a read of `room` bytes hands over at position `pos` of `size`. */
  function Count(answer: Answer, room: nat, pos: nat, size: nat): nat
    requires pos <= size
  {
    Min(Min(answer.chunk, room), size - pos)
  }

  /** What it reports afterwards, at position `pos`. */
  function Report(answer: Answer, pos: nat, size: nat): Status {
    if answer.broken then Failed else if pos == size && answer.eager then Eof else More
  }

  /** Where a bounded read leaves the object, and what it reports. */
  datatype Progress = Progress(pos: nat, status: Status)

  function After(size: nat, max: nat, pos: nat, room: nat, answer: Answer): (r: Progress)
    requires pos <= size
    ensures pos <= r.pos <= size
  {
    if pos >= max then
      var probed := Count(answer, 1, pos, size);
      Progress(pos + probed, if probed != 0 then TooLarge else Report(answer, pos, size))
    else
      var n := Count(answer, Min(room, max - pos), pos, size);
      Progress(pos + n, Report(answer, pos + n, size))
  }

  class Body {
    const content: seq<byte>
    var pos: nat

    ghost predicate Valid()
      reads this
    {
      pos <= |content|
    }

    constructor (content: seq<byte>)
      ensures Valid() && this.content == content && pos == 0
    {
      this.content := content;
      pos := 0;
    }

    /** An arbitrary short read into the first `room` bytes of `p`. */
    method Read(p: array<byte>, room: nat, answer: Answer) returns (n: nat, status: Status)
      requires Valid() && room <= p.Length
      modifies this, p
      ensures Valid() && n == Count(answer, room, old(pos), |content|) && pos == old(pos) + n
      ensures forall i | 0 <= i < n :: p[i] == content[old(pos) + i]
      ensures forall i | n <= i < p.Length :: p[i] == old(p[i])
      ensures status == Report(answer, pos, |content|)
    {
      n := Count(answer, room, pos, |content|);
      for i := 0 to n
        invariant pos == old(pos)
        invariant forall k | 0 <= k < i :: p[k] == content[pos + k]
        invariant forall k | i <= k < p.Length :: p[k] == old(p[k])
      {
        p[i] := content[pos + i];
      }
      pos := pos + n;
      status := Report(answer, pos, |content|);
    }
  }

  class Reader {
    const body: Body
    const max: nat
    var remaining: nat
    /** Everything handed to callers so far. */
    ghost var delivered: seq<byte>

    /** The bytes delivered are the front of the object, cut at the bound, and
        `remaining` is what the bound still allows. */
    ghost predicate Valid()
      reads this, body
    {
      && body.Valid()
      && delivered == body.content[..Min(body.pos, max)]
      && remaining == max - |delivered|
    }

    constructor (body: Body, max: nat)
      requires body.Valid() && body.pos == 0
      ensures Valid() && this.body == body && this.max == max && delivered == []
    {
      this.body := body;
      this.max := max;
      remaining := max;
      delivered := [];
    }

    method Read(p: array<byte>, answer: Answer) returns (n: nat, status: Status)
      requires Valid()
      modifies this, body, p
      ensures Valid() && n <= p.Length && delivered == old(delivered) + p[..n]
      ensures forall i | n <= i < p.Length :: p[i] == old(p[i])
      ensures n == if old(remaining) == 0 then 0
                   else Count(answer, Min(p.Length, old(remaining)), old(body.pos), |body.content|)
      ensures Progress(body.pos, status) == After(|body.content|, max, old(body.pos), p.Length, answer)
      ensures status == TooLarge <==>
        old(remaining) == 0 && Count(answer, 1, old(body.pos), |body.content|) > 0
      ensures status == TooLarge ==> n == 0 && body.pos == old(body.pos) + 1 && body.pos > max
      ensures status != TooLarge ==> body.pos == old(body.pos) + n && status == Report(answer, body.pos, |body.content|)
    {
      if remaining == 0 {
        var one := new byte[1];
        var probed;
        probed, status := body.Read(one, 1, answer);
        if probed != 0 {
          return 0, TooLarge;
        }
        return 0, status;
      }
      n, status := body.Read(p, Min(p.Length, remaining), answer);
      remaining := remaining - n;
      delivered := delivered + p[..n];
    }
  }

  type Schedule = seq<(nat, Answer)>

  /** The first `n` reads of a schedule of buffer sizes and answers, up to the first
      that reports anything but more to come. */
  function Replay(size: nat, max: nat, schedule: Schedule, n: nat): (r: Progress)
    requires n <= |schedule|
    ensures r.pos <= size
  {
    if n == 0 then Progress(0, More)
    else
      var before := Replay(size, max, schedule, n - 1);
      if before.status != More then before
      else After(size, max, before.pos, schedule[n - 1].0, schedule[n - 1].1)
  }

  /** Reading until anything but more is reported: the data is the front of the object
      up to the bound, the end is reached exactly by an object within the bound and the
      size error exactly by a larger one. */
  method ReadAll(content: seq<byte>, max: nat, schedule: Schedule) returns (data: seq<byte>, status: Status)
    ensures var end := Replay(|content|, max, schedule, |schedule|);
      data == content[..Min(end.pos, max)] && status == end.status
    ensures data <= content && |data| <= max
    ensures status in {Eof, TooLarge} ==>
      data == content[..Min(|content|, max)] && (status == TooLarge <==> |content| > max)
  {
    var body := new Body(content);
    var reader := new Reader(body, max);
    data, status := [], More;
    ReplayStays(|content|, max, schedule, 0);
    for i := 0 to |schedule|
      invariant reader.Valid() && fresh(reader) && fresh(reader.body) && reader.body == body
      invariant body.content == content && reader.max == max
      invariant data == reader.delivered && status == More && body.pos <= max
      invariant Progress(body.pos, status) == Replay(|content|, max, schedule, i)
    {
      var p := new byte[schedule[i].0];
      var n;
      n, status := reader.Read(p, schedule[i].1);
      data := data + p[..n];
      if status != More {
        ReplayStays(|content|, max, schedule, i + 1);
        return;
      }
    }
  }

  /** Nothing is read after the first report. */
  lemma {:induction false} ReplayStays(size: nat, max: nat, schedule: Schedule, n: nat)
    requires n <= |schedule|
    ensures var stop := Replay(size, max, schedule, n);
      stop.status != More ==> Replay(size, max, schedule, |schedule|) == stop
    decreases |schedule| - n
  {
    if n < |schedule| {
      ReplayStays(size, max, schedule, n + 1);
    }
  }

  /** Each read that asks for something and is given something brings at least one byte,
      until all bytes within the bound are there. */
  lemma {:induction false} ReadsProgress(size: nat, max: nat, schedule: Schedule, n: nat)
    requires n <= |schedule|
    requires forall i | 0 <= i < |schedule| :: schedule[i].0 > 0 && schedule[i].1.chunk > 0 && !schedule[i].1.broken
    ensures var r := Replay(size, max, schedule, n);
      && (r.status == More ==> Min(n, Min(size, max)) <= r.pos <= max)
      && (r.status == Eof ==> r.pos == size <= max)
      && (r.status == TooLarge ==> r.pos == max + 1)
      && r.status != Failed
  {
    if n > 0 {
      ReadsProgress(size, max, schedule, n - 1);
    }
  }

  /** Enough such reads deliver exactly the first min(size, max) bytes; one more
      ends in the size error for a larger object, and at the end of any other once the
      end is reported. */
  lemma {:induction false} ReadsToTheEnd(size: nat, max: nat, schedule: Schedule)
    requires forall i | 0 <= i < |schedule| :: schedule[i].0 > 0 && schedule[i].1.chunk > 0 && !schedule[i].1.broken
    ensures var end, all := Replay(size, max, schedule, |schedule|), Min(size, max);
      && (|schedule| >= all ==> Min(end.pos, max) == all)
      && (|schedule| > all && (size > max || schedule[|schedule| - 1].1.eager) ==>
            end.status == if size > max then TooLarge else Eof)
  {
    ReadsProgress(size, max, schedule, |schedule|);
    if |schedule| > Min(size, max) {
      ReadsProgress(size, max, schedule, |schedule| - 1);
    }
  }

  /** Reading on after the bound: the size error is reported once for each byte that is
      left, and not again. */
  method ReadOn(reader: Reader, answers: seq<Answer>) returns (statuses: seq<Status>)
    requires reader.Valid() && reader.remaining == 0
    requires forall i | 0 <= i < |answers| :: answers[i].chunk > 0 && !answers[i].broken
    modifies reader, reader.body
    ensures reader.Valid() && reader.delivered == old(reader.delivered) && |statuses| == |answers|
    ensures forall i | 0 <= i < |statuses| :: statuses[i] == TooLarge <==>
              old(reader.body.pos) + i < |reader.body.content|
    ensures forall i | 0 <= i < |statuses| :: statuses[i] in {TooLarge, Eof, More}
  {
    statuses := [];
    for i := 0 to |answers|
      invariant reader.Valid() && reader.remaining == 0 && reader.delivered == old(reader.delivered)
      invariant reader.body.pos == Min(old(reader.body.pos) + i, |reader.body.content|) && |statuses| == i
      invariant forall k | 0 <= k < i :: statuses[k] == TooLarge <==> old(reader.body.pos) + k < |reader.body.content|
      invariant forall k | 0 <= k < i :: statuses[k] in {TooLarge, Eof, More}
    {
      var p := new byte[1];
      var n, status := reader.Read(p, answers[i]);
      assert p[..0] == [];
      statuses := statuses + [status];
    }
  }

  /** The size error is not sticky: behind any bound, an object one byte larger is
      first reported as too large and then as ended. */
  method SizeErrorThenEof(content: seq<byte>, max: nat) returns (data: seq<byte>, first: Status, second: Status)
    requires max > 0 && |content| == max + 1
    ensures data == content[..max] && first == TooLarge && second == Eof
  {
    var body := new Body(content);
    var reader := new Reader(body, max);
    var p := new byte[max];
    var n, opening := reader.Read(p, Answer(max, false, false));
    data := p[..n];
    n, first := reader.Read(p, Answer(1, false, false));
    n, second := reader.Read(p, Answer(1, true, false));
  }
}
