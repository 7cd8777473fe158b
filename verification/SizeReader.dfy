/** transformers/oci/content.go: reading at offsets from a stream that only goes forward. */
module SizeReader {
  import opened Results

  datatype ReadError = InvalidOffset | StreamError | EndOfFile

  type Positive = x: nat | x > 0 witness 1

  /** What a read does: it gives some bytes, at most so many, and at the end of the stream
      may say so beside the last of them; or it fails, perhaps after some bytes. */
  datatype Turn = Gives(most: Positive, tellsEnd: bool) | Fails(after: nat)

  function Least(a: nat, b: nat): nat {
    if a < b then a else b
  }

  /** The buffer through which bytes are thrown away. */
  const BLOCK := 8192

  /** A stream of bytes.  What its k-th read does is arbitrary, except that a read that does
      not fail gives at least one byte until the end is reached. */
  class Stream {
    const content: seq<char>
    const turns: nat -> Turn
    var pos: nat
    var turn: nat

    ghost predicate Valid()
      reads this
    {
      pos <= |content|
    }

    constructor (content: seq<char>, turns: nat -> Turn)
      ensures Valid() && pos == 0 && this.content == content && this.turns == turns
    {
      this.content, this.turns := content, turns;
      pos, turn := 0, 0;
    }

    /** Takes at most n bytes off the stream. */
    method Take(n: nat) returns (bytes: seq<char>, err: Option<ReadError>)
      requires Valid()
      modifies this
      ensures Valid() && old(pos) <= pos <= old(pos) + n && bytes == content[old(pos)..pos] && turn == old(turn) + 1
      ensures err == Some(StreamError) <==> turns(old(turn)).Fails?
      ensures err == Some(EndOfFile) ==> pos == |content|
      ensures err == None && n > 0 ==> pos > old(pos)
      ensures err == None || err == Some(StreamError) || err == Some(EndOfFile)
    {
      var left := |content| - pos;
      var does := turns(turn);
      var k := Least(if does.Gives? then does.most else does.after, Least(n, left));
      bytes := content[pos..pos + k];
      if does.Fails? {
        err := Some(StreamError);
      } else if n > 0 && (left == 0 || (does.tellsEnd && k == left)) {
        err := Some(EndOfFile);
      } else {
        err := None;
      }
      pos, turn := pos + k, turn + 1;
    }

    /** `Read`: fills the front of the buffer. */
    method Read(p: array<char>) returns (n: nat, err: Option<ReadError>)
      requires Valid()
      modifies this, p
      ensures Valid() && n <= p.Length && pos == old(pos) + n
      ensures p[..n] == content[old(pos)..pos] && p[n..] == old(p[..])[n..]
      ensures err == Some(StreamError) <==> turns(old(turn)).Fails?
      ensures err == Some(EndOfFile) ==> pos == |content|
      ensures err == None || err == Some(StreamError) || err == Some(EndOfFile)
      ensures err == None && p.Length > 0 ==> n > 0
    {
      var bytes;
      bytes, err := Take(p.Length);
      n := |bytes|;
      forall i | 0 <= i < n {
        p[i] := bytes[i];
      }
    }

    /** `io.CopyN` to nowhere: reads again and again until the n bytes are gone, a read fails,
        or the stream ends.  An error beside the last of the n bytes is dropped. */
    method Skip(n: nat) returns (written: nat, err: Option<ReadError>)
      requires Valid()
      modifies this
      ensures Valid() && pos == old(pos) + written && written <= n && old(turn) <= turn
      ensures err == None <==> written == n
      ensures err == Some(EndOfFile) ==> pos == |content|
      ensures err != None && err != Some(EndOfFile) ==> err == Some(StreamError) && SomeFails(old(turn))
    {
      written, err := 0, None;
      while written < n
        invariant Valid() && pos == old(pos) + written && written <= n && old(turn) <= turn && err == None
        decreases |content| - pos
      {
        var bytes, e := Take(Least(n - written, BLOCK));
        written := written + |bytes|;
        if e.Some? {
          assert e == Some(StreamError) ==> turns(turn - 1).Fails?;
          err := if written < n then e else None;
          return;
        }
      }
    }

    /** Some read from this one on fails. */
    ghost predicate SomeFails(from: nat) {
      exists t: nat :: from <= t && turns(t).Fails?
    }
  }

  class SizeReaderAt {
    const size: int
    const rc: Stream
    var n: nat

    /** The cursor is the position of the stream. */
    ghost predicate Valid()
      reads this, rc
    {
      rc.Valid() && n == rc.pos
    }

    constructor (size: int, rc: Stream)
      requires rc.Valid() && rc.pos == 0
      ensures Valid() && this.rc == rc && n == 0
    {
      this.size, this.rc, this.n := size, rc, 0;
    }

    /** Reads at an offset.  An offset behind the cursor is refused and nothing moves; when
        the stream ends or fails before the offset, the number of skipped bytes is returned
        with the error and the buffer is left alone; otherwise the buffer begins with the
        content at the offset.  If no read fails, the offset is reached exactly when it lies
        between the cursor and the end, and then at least one byte is read unless there is
        none, or no room. */
    method ReadAt(p: array<char>, offset: int) returns (k: nat, err: Option<ReadError>, ghost reached: bool)
      requires Valid()
      modifies this, rc, p
      ensures Valid() && n <= |rc.content|
      ensures Answered(rc.content, Call(old(n), n, offset, k, err, if reached && k <= p.Length then p[..k] else [], reached))
      ensures reached ==> k <= p.Length && p[k..] == old(p[..])[k..]
      ensures !reached ==> p[..] == old(p[..])
      ensures !rc.SomeFails(old(rc.turn)) ==> (reached <==> old(n) <= offset <= |rc.content|)
      ensures !rc.SomeFails(old(rc.turn)) && reached && p.Length > 0 && offset < |rc.content| ==> k > 0
    {
      reached := false;
      if offset < n {
        return 0, Some(InvalidOffset), reached;
      }
      var diff := offset - n;
      var written;
      written, err := rc.Skip(diff);
      n := n + written;
      if err.Some? {
        return written, err, reached;
      }
      reached := true;
      assert rc.turns(rc.turn).Fails? ==> rc.SomeFails(old(rc.turn));
      k, err := rc.Read(p);
      n := n + k;
    }
  }

  // ----- sequences of calls -----

  /** One call of ReadAt: the cursor before and after, the offset, the count and error it
      returned, what it left at the front of the buffer, and whether it got to the offset. */
  datatype Call = Call(before: nat, after: nat, offset: int, k: nat, err: Option<ReadError>, bytes: seq<char>, reached: bool)

  ghost predicate Answered(content: seq<char>, c: Call) {
    && c.before <= c.after <= |content|
    && (c.offset < c.before ==> !c.reached && c.k == 0 && c.err == Some(InvalidOffset) && c.after == c.before)
    && (c.offset >= c.before && !c.reached ==> c.err.Some? && c.after == c.before + c.k < c.offset)
    && (c.reached ==> c.before <= c.offset && c.after == c.offset + c.k && c.bytes == content[c.offset..c.after])
  }

  /** Calls made one after the other. */
  ghost predicate Chained(content: seq<char>, calls: seq<Call>) {
    && (forall i :: 0 <= i < |calls| ==> Answered(content, calls[i]))
    && (forall i :: 0 <= i < |calls| - 1 ==> calls[i].after == calls[i + 1].before)
  }

  lemma {:induction false} CursorNeverFalls(content: seq<char>, calls: seq<Call>, i: nat, j: nat)
    requires Chained(content, calls) && i < j < |calls|
    ensures calls[i].after <= calls[j].before
    decreases j - i
  {
    assert Answered(content, calls[i + 1]);
    if i + 1 < j {
      CursorNeverFalls(content, calls, i + 1, j);
    }
  }

  /** The pieces that calls deliver lie in the content one behind the other and never
      overlap, and a call that comes back to an offset already passed is refused. */
  lemma PiecesInOrder(content: seq<char>, calls: seq<Call>, i: nat, j: nat)
    requires Chained(content, calls) && i < j < |calls| && calls[i].reached
    ensures calls[j].reached ==> calls[i].offset + calls[i].k <= calls[j].offset
    ensures calls[j].reached ==> calls[i].bytes == content[calls[i].offset..calls[i].offset + calls[i].k]
    ensures calls[j].offset < calls[i].offset + calls[i].k ==> calls[j].err == Some(InvalidOffset) && calls[j].after == calls[j].before
  {
    CursorNeverFalls(content, calls, i, j);
    assert Answered(content, calls[i]) && Answered(content, calls[j]);
  }
}
