/** The READ_ALL / READ_N_BYTES loop of Channel.read as functions over the
    final reader's answers, and what it guarantees. */
module ReadLoop {
  import opened ChannelTypes

  function ChunkSize(c: Chunk): nat {
    match c
    case Data(u) => 1 + |u|
    case _ => 1
  }

  /** A measure of how much the final reader still has to answer. */
  function FeedSize(cs: seq<Chunk>): nat {
    if cs == [] then 0 else ChunkSize(cs[0]) + FeedSize(cs[1..])
  }

  /** All units the final reader will deliver, in order. */
  function Stream(cs: seq<Chunk>): seq<JChar> {
    if cs == [] then [] else (if cs[0].Data? then cs[0].units else []) + Stream(cs[1..])
  }

  /** Size of the buffer read() allocates: the smaller of the count and 8192. */
  function BufSize(numBytes: int): (r: int)
    ensures r <= numBytes && r <= ChunkLimit
    ensures r == numBytes || r == ChunkLimit
  {
    if numBytes < ChunkLimit then numBytes else ChunkLimit
  }

  /** The answer to one read(buf) call, and what the reader answers afterwards. */
  datatype Pulled = Got(units: seq<JChar>, rest: seq<Chunk>) | AtEnd(rest: seq<Chunk>) | Failed(rest: seq<Chunk>)

  /** One read(buf) call with a buffer of n units. A reader with nothing left
      keeps reporting end of stream; a chunk longer than the buffer is split. */
  function Pull(cs: seq<Chunk>, n: nat): (p: Pulled)
    requires n >= 1
    ensures cs == [] ==> p == AtEnd([])
    ensures cs != [] ==> FeedSize(p.rest) < FeedSize(cs)
    ensures p.Got? ==> |p.units| <= n && p.units + Stream(p.rest) == Stream(cs)
    ensures !p.Got? ==> Stream(p.rest) == Stream(cs)
  {
    if cs == [] then AtEnd([])
    else match cs[0]
      case End => AtEnd(cs[1..])
      case Fault => Failed(cs[1..])
      case Data(u) =>
        if |u| <= n then Got(u, cs[1..])
        else
          var rest := [Data(u[n..])] + cs[1..];
          assert rest[0] == Data(u[n..]) && rest[1..] == cs[1..];
          assert u[..n] + u[n..] == u;
          Got(u[..n], rest)
  }

  /** Why the loop stopped: the count was reached, the reader hit end of
      stream, a non-blocking read made no progress, or the reader failed. */
  datatype Stop = Filled | AtEof | Stalled | Faulted

  /** The loop's final total, the text appended to the destination, what the
      reader answers afterwards, and why the loop stopped. */
  datatype Drained = Drained(total: int, text: seq<JChar>, rest: seq<Chunk>, stop: Stop)

  /** The loop `while (total < numBytes)` of Channel.read, from the given
      total and text on: every request is for `bufsize` units. */
  function Drain(cs: seq<Chunk>, numBytes: int, bufsize: int, blocking: bool, total: int, text: seq<JChar>): Drained
    requires numBytes <= total || bufsize >= 1
    decreases FeedSize(cs)
  {
    if numBytes <= total then Drained(total, text, cs, Filled)
    else match Pull(cs, bufsize)
      case AtEnd(rest) => Drained(total, text, rest, AtEof)
      case Failed(rest) => Drained(total, text, rest, Faulted)
      case Got(u, rest) =>
        if |u| == 0 && !blocking then Drained(total, text, rest, Stalled)
        else Drain(rest, numBytes, bufsize, blocking, total + |u|, text + u)
  }

  /** What one finished loop did, seen from where it started: the text grew
      by `taken`, the units taken from the reader, and the total by as many. */
  predicate Conserves(cs: seq<Chunk>, total: int, text: seq<JChar>, d: Drained) {
    && |text| <= |d.text|
    && d.text == text + d.text[|text|..]
    && d.text[|text|..] + Stream(d.rest) == Stream(cs)
    && d.total - total == |d.text| - |text|
  }

  /** Nothing is lost, invented or reordered: the text grows by exactly the
      units taken from the reader, the rest is still to come, and the total
      counts the units appended. */
  lemma {:induction false} DrainConserves(cs: seq<Chunk>, numBytes: int, bufsize: int, blocking: bool, total: int, text: seq<JChar>)
    requires numBytes <= total || bufsize >= 1
    ensures Conserves(cs, total, text, Drain(cs, numBytes, bufsize, blocking, total, text))
    decreases FeedSize(cs)
  {
    var d := Drain(cs, numBytes, bufsize, blocking, total, text);
    if total < numBytes {
      var p := Pull(cs, bufsize);
      if p.Got? && !(|p.units| == 0 && !blocking) {
        var text' := text + p.units;
        DrainConserves(p.rest, numBytes, bufsize, blocking, total + |p.units|, text');
        assert d == Drain(p.rest, numBytes, bufsize, blocking, total + |p.units|, text');
        ConservesStep(cs, total, text, p.units, p.rest, d);
      } else {
        assert d.text == text && Stream(d.rest) == Stream(cs) by {
          assert d.rest == p.rest;
        }
        assert d.text[|text|..] == [];
      }
    } else {
      assert d.text[|text|..] == [];
    }
  }

  /** One loop iteration that took `u` from the reader composes with the
      rest of the loop. */
  lemma ConservesStep(cs: seq<Chunk>, total: int, text: seq<JChar>, u: seq<JChar>, rest: seq<Chunk>, d: Drained)
    requires u + Stream(rest) == Stream(cs)
    requires Conserves(rest, total + |u|, text + u, d)
    ensures Conserves(cs, total, text, d)
  {
    SplitAfter(text, u, d.text, Stream(d.rest), Stream(rest), Stream(cs));
  }

  /** Sequence bookkeeping behind ConservesStep. */
  lemma SplitAfter(a: seq<JChar>, u: seq<JChar>, t: seq<JChar>, after: seq<JChar>, mid: seq<JChar>, all: seq<JChar>)
    requires |a + u| <= |t| && t == (a + u) + t[|a + u|..]
    requires t[|a + u|..] + after == mid
    requires u + mid == all
    ensures |a| <= |t| && t == a + t[|a|..]
    ensures t[|a|..] + after == all
  {
    var taken := t[|a + u|..];
    assert t[|a|..] == u + taken;
    assert t == a + (u + taken);
  }

  /** The loop reports "filled" exactly when the total reached the count:
      every other exit happens with the total still below it. */
  lemma {:induction false} DrainFilledIff(cs: seq<Chunk>, numBytes: int, bufsize: int, blocking: bool, total: int, text: seq<JChar>)
    requires numBytes <= total || bufsize >= 1
    ensures var d := Drain(cs, numBytes, bufsize, blocking, total, text);
      d.stop == Filled <==> numBytes <= d.total
    decreases FeedSize(cs)
  {
    if total < numBytes {
      var p := Pull(cs, bufsize);
      if p.Got? && !(|p.units| == 0 && !blocking) {
        DrainFilledIff(p.rest, numBytes, bufsize, blocking, total + |p.units|, text + p.units);
      }
    }
  }

  /** The total never decreases, and it can exceed the count by less than
      one buffer: a request is never cut down to the remaining count. */
  lemma {:induction false} DrainBound(cs: seq<Chunk>, numBytes: int, bufsize: int, blocking: bool, total: int, text: seq<JChar>)
    requires numBytes <= total || bufsize >= 1
    requires total < numBytes + bufsize
    ensures var d := Drain(cs, numBytes, bufsize, blocking, total, text);
      total <= d.total < numBytes + bufsize
    decreases FeedSize(cs)
  {
    if total < numBytes {
      var p := Pull(cs, bufsize);
      if p.Got? && !(|p.units| == 0 && !blocking) {
        DrainBound(p.rest, numBytes, bufsize, blocking, total + |p.units|, text + p.units);
      }
    }
  }

  /** In blocking mode a read that makes no progress does not stop the loop:
      only the count, end of stream or a failure does. */
  lemma {:induction false} DrainBlockingNeverStalls(cs: seq<Chunk>, numBytes: int, bufsize: int, total: int, text: seq<JChar>)
    requires numBytes <= total || bufsize >= 1
    ensures Drain(cs, numBytes, bufsize, true, total, text).stop != Stalled
    decreases FeedSize(cs)
  {
    if total < numBytes {
      var p := Pull(cs, bufsize);
      if p.Got? {
        DrainBlockingNeverStalls(p.rest, numBytes, bufsize, total + |p.units|, text + p.units);
      }
    }
  }

  /** The reader, asked for `bufsize` units at a time while the running
      total (from `total` on) was below `numBytes`, answered data every time
      (an empty answer only when `blocking`), delivered `taken` in all, and
      now stands at `at`. */
  predicate Delivers(cs: seq<Chunk>, bufsize: int, blocking: bool, numBytes: int, total: int, taken: seq<JChar>, at: seq<Chunk>)
    requires bufsize >= 1
    decreases FeedSize(cs)
  {
    || (taken == [] && at == cs)
    || (total < numBytes && cs != [] &&
        var p := Pull(cs, bufsize);
        && p.Got? && (blocking || p.units != [])
        && |p.units| <= |taken| && taken[..|p.units|] == p.units
        && Delivers(p.rest, bufsize, blocking, numBytes, total + |p.units|, taken[|p.units|..], at))
  }

  /** How a loop that left the reader at `at` ended: on the count, with the
      reader untouched; or on the reader's next answer, which it consumed:
      end of stream, a failure, or (non-blocking only) an empty answer. */
  predicate EndsAt(at: seq<Chunk>, bufsize: int, blocking: bool, filled: bool, d: Drained)
    requires bufsize >= 1
  {
    if filled then d.stop == Filled && d.rest == at
    else
      var p := Pull(at, bufsize);
      && d.rest == p.rest
      && match p
         case AtEnd(_) => d.stop == AtEof
         case Failed(_) => d.stop == Faulted
         case Got(u, _) => u == [] && !blocking && d.stop == Stalled
  }

  /** `d` is explained by the reader's answers: it appended to `text` what a
      delivering run handed over, and stopped as EndsAt says. */
  ghost predicate Explains(cs: seq<Chunk>, numBytes: int, bufsize: int, blocking: bool, total: int, text: seq<JChar>, d: Drained)
    requires bufsize >= 1
  {
    exists taken, at :: d.text == text + taken && Delivers(cs, bufsize, blocking, numBytes, total, taken, at)
                        && EndsAt(at, bufsize, blocking, numBytes <= d.total, d)
  }

  /** The loop is a run of data answers followed by the answer that stopped
      it: the text it appends is what those answers delivered, and the stop
      reason is the reader's next answer unless the count was reached. */
  lemma {:induction false} DrainAnswers(cs: seq<Chunk>, numBytes: int, bufsize: int, blocking: bool, total: int, text: seq<JChar>)
    requires bufsize >= 1
    ensures Explains(cs, numBytes, bufsize, blocking, total, text, Drain(cs, numBytes, bufsize, blocking, total, text))
    decreases FeedSize(cs)
  {
    var d := Drain(cs, numBytes, bufsize, blocking, total, text);
    var p := Pull(cs, bufsize);
    if total < numBytes && p.Got? && !(|p.units| == 0 && !blocking) {
      var u := p.units;
      assert d == Drain(p.rest, numBytes, bufsize, blocking, total + |u|, text + u);
      DrainAnswers(p.rest, numBytes, bufsize, blocking, total + |u|, text + u);
      ExplainsStep(cs, numBytes, bufsize, blocking, total, text, u, p.rest, d);
    } else {
      StopAnswer(cs, numBytes, bufsize, blocking, total, text);
      assert Delivers(cs, bufsize, blocking, numBytes, total, [], cs);
    }
  }

  /** One data answer in front of an explained rest of the loop. */
  lemma ExplainsStep(cs: seq<Chunk>, numBytes: int, bufsize: int, blocking: bool, total: int, text: seq<JChar>,
                     u: seq<JChar>, rest: seq<Chunk>, d: Drained)
    requires bufsize >= 1 && total < numBytes && cs != []
    requires Pull(cs, bufsize) == Got(u, rest) && (blocking || u != [])
    requires Explains(rest, numBytes, bufsize, blocking, total + |u|, text + u, d)
    ensures Explains(cs, numBytes, bufsize, blocking, total, text, d)
  {
    var taken, at :| d.text == (text + u) + taken
                     && Delivers(rest, bufsize, blocking, numBytes, total + |u|, taken, at)
                     && EndsAt(at, bufsize, blocking, numBytes <= d.total, d);
    DeliversStep(cs, bufsize, blocking, numBytes, total, u, rest, taken, at);
    assert d.text == text + (u + taken);
  }

  /** A loop that stops at once appends nothing and stops on the count or
      on the reader's next answer. */
  lemma StopAnswer(cs: seq<Chunk>, numBytes: int, bufsize: int, blocking: bool, total: int, text: seq<JChar>)
    requires bufsize >= 1
    requires var p := Pull(cs, bufsize); !(total < numBytes && p.Got? && !(|p.units| == 0 && !blocking))
    ensures var d := Drain(cs, numBytes, bufsize, blocking, total, text);
      d.text == text + [] && EndsAt(cs, bufsize, blocking, numBytes <= d.total, d)
  {
    assert text + [] == text;
  }

  /** One data answer in front of a delivering run is a delivering run. */
  lemma DeliversStep(cs: seq<Chunk>, bufsize: int, blocking: bool, numBytes: int, total: int, u: seq<JChar>,
                     rest: seq<Chunk>, taken: seq<JChar>, at: seq<Chunk>)
    requires bufsize >= 1 && total < numBytes && cs != []
    requires Pull(cs, bufsize) == Got(u, rest) && (blocking || u != [])
    requires Delivers(rest, bufsize, blocking, numBytes, total + |u|, taken, at)
    ensures Delivers(cs, bufsize, blocking, numBytes, total, u + taken, at)
  {
    assert (u + taken)[..|u|] == u && (u + taken)[|u|..] == taken;
  }

  const Abc: seq<JChar> := [97, 98, 99]
  const Digits: seq<JChar> := [48, 49, 50, 51, 52, 53, 54, 55, 56, 57]

  /** A request for 10 units over a reader that answers 3 units and then 10
      more returns 13: the second request still asks for a whole buffer. */
  lemma OvershootWitness()
    ensures Drain([Data(Abc), Data(Digits)], 10, BufSize(10), true, 0, []).total == 13
  {
    var cs := [Data(Abc), Data(Digits)];
    assert Pull(cs, 10) == Got(Abc, [Data(Digits)]);
    assert [] + Abc == Abc;
    assert Drain(cs, 10, 10, true, 0, []) == Drain([Data(Digits)], 10, 10, true, 3, Abc);
    assert Pull([Data(Digits)], 10) == Got(Digits, []);
    assert Drain([Data(Digits)], 10, 10, true, 3, Abc) == Drain([], 10, 10, true, 13, Abc + Digits);
  }
}
