/**
 What a queue's log is to its users: one sequence of messages with a head offset,
 which only grows at its end and only shrinks at its front.
 */
module FlatLog {
  import opened Prelude

  datatype Log<M> = Log(head: nat, messages: seq<M>, closed: bool) {
    function Tail(): nat {
      head + |messages|
    }

    predicate Has(o: nat) {
      head <= o < Tail()
    }

    function At(o: nat): M
      requires Has(o)
    {
      messages[o - head]
    }
  }

  /** The messages from `start` up to `end`, at most `max` of them; nothing if `start` is not in the log. */
  function Slice<M>(l: Log<M>, start: nat, end: nat, max: nat): seq<M> {
    if end <= start || !l.Has(start) then []
    else l.messages[start - l.head..Min(Min(end, l.Tail()), start + max) - l.head]
  }

  /**
   One log is an earlier moment of another: no offset that both have changed its
   message, and neither end moved back.
   */
  ghost predicate Evolves<M>(a: Log<M>, b: Log<M>) {
    && a.head <= b.head && a.Tail() <= b.Tail() && (a.closed ==> b.closed)
    && forall o :: a.Has(o) && b.Has(o) ==> a.At(o) == b.At(o)
  }

  lemma EvolvesTransitive<M>(a: Log<M>, b: Log<M>, c: Log<M>)
    requires Evolves(a, b) && Evolves(b, c)
    ensures Evolves(a, c)
  {
    forall o | a.Has(o) && c.Has(o) ensures a.At(o) == c.At(o) {
      assert b.Has(o);
    }
  }

  lemma AppendEvolves<M>(l: Log<M>, more: seq<M>)
    ensures Evolves(l, l.(messages := l.messages + more))
  {
  }

  /** The log without what lies before this offset. */
  function Dropped<M>(l: Log<M>, head: nat): Log<M>
    requires l.head <= head <= l.Tail()
  {
    l.(head := head, messages := l.messages[head - l.head..])
  }

  lemma DropEvolves<M>(l: Log<M>, head: nat)
    requires l.head <= head <= l.Tail()
    ensures Evolves(l, Dropped(l, head))
  {
  }

  lemma DropTwice<M>(l: Log<M>, a: nat, b: nat)
    requires l.head <= a <= b <= l.Tail()
    ensures Dropped(Dropped(l, a), b) == Dropped(l, b)
  {
  }

  lemma RestartEvolves<M>(l: Log<M>, head: nat)
    requires l.Tail() <= head
    ensures Evolves(l, l.(head := head, messages := []))
  {
  }
}
