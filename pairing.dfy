/**
 * The rendezvous `pair_manager` of kesar.py. Participants who want a
 * partner queue up in arrival order; as soon as two are waiting, the two
 * at the front are linked to each other. Linked participants exchange
 * messages through one-slot mailboxes, and a participant whose partner
 * has not been heard from within `timeout` is told that the partner has
 * disconnected.
 *
 * The pure part (Pool, Drain, Join) specifies the waiting list and the
 * partner map; the class PairManager is the mutable object itself. The
 * clock is the integer `now` each operation receives.
 */
module Pairing {

  /** The waiting list and the partner map of a manager. */
  datatype Pool = Pool(waiting: seq<string>, partners: map<string, string>)

  /** The drain loop of get_partner: while two names are waiting, the two
      at the front are taken off and linked in both directions. */
  function Drain(waiting: seq<string>, partners: map<string, string>): Pool
    decreases |waiting|
  {
    if |waiting| < 2 then Pool(waiting, partners)
    else Drain(waiting[2..], partners[waiting[0] := waiting[1]][waiting[1] := waiting[0]])
  }

  /** The queue and partner map after `name` asks for a partner. */
  function Join(p: Pool, name: string): Pool
  {
    Drain(p.waiting + [name], p.partners)
  }

  /** The pool after `names` ask for a partner one after another. */
  function JoinAll(p: Pool, names: seq<string>): Pool
  {
    if names == [] then p else Join(JoinAll(p, names[..|names| - 1]), names[|names| - 1])
  }

  /** The position of the partner of the name at position j: names are
      paired 0 with 1, 2 with 3, and so on. */
  function Mate(j: nat): nat
  {
    if j % 2 == 0 then j + 1 else j - 1
  }

  /** The name at position j of `names` is linked to the name at the
      mate position. */
  predicate PairedAt(names: seq<string>, partners: map<string, string>, j: nat)
    requires j < |names| && Mate(j) < |names|
  {
    names[j] in partners && partners[names[j]] == names[Mate(j)]
  }

  predicate Distinct(names: seq<string>)
  {
    forall i, j :: 0 <= i < j < |names| ==> names[i] != names[j]
  }

  /** Draining leaves fewer than two names waiting, and it removes names
      only from the front, two at a time, so the names left are the last
      |waiting| % 2 arrivals. */
  lemma {:induction false} DrainLeavesTail(waiting: seq<string>, partners: map<string, string>)
    ensures |Drain(waiting, partners).waiting| == |waiting| % 2
    ensures Drain(waiting, partners).waiting == waiting[|waiting| - |waiting| % 2..]
  {
    if |waiting| >= 2 {
      DrainLeavesTail(waiting[2..], partners[waiting[0] := waiting[1]][waiting[1] := waiting[0]]);
      assert waiting[2..][|waiting| - 2 - |waiting| % 2..] == waiting[|waiting| - |waiting| % 2..];
    }
  }

  lemma DistinctTail(waiting: seq<string>)
    requires |waiting| >= 2 && Distinct(waiting)
    ensures Distinct(waiting[2..])
  {
    var rest := waiting[2..];
    forall i, j | 0 <= i < j < |rest| ensures rest[i] != rest[j] {
      assert rest[i] == waiting[i + 2] && rest[j] == waiting[j + 2];
    }
  }

  /** The first two of distinct names do not occur again further on. */
  lemma FrontNotLater(waiting: seq<string>, j: nat, n: nat)
    requires j < 2 <= n <= |waiting| && Distinct(waiting)
    ensures waiting[j] !in waiting[2..n]
  {
    forall i | 0 <= i < n - 2 ensures waiting[2..n][i] != waiting[j] {
      assert waiting[2..n][i] == waiting[i + 2];
    }
  }

  /** Draining changes the partner map only at the names it takes off
      the queue. */
  lemma {:induction false} DrainKeepsOthers(waiting: seq<string>, partners: map<string, string>)
    ensures var r := Drain(waiting, partners);
      forall k :: k !in waiting[..|waiting| - |waiting| % 2] ==>
        (k in r.partners <==> k in partners) && (k in partners ==> r.partners[k] == partners[k])
  {
    if |waiting| >= 2 {
      var a, b := waiting[0], waiting[1];
      var rest := waiting[2..];
      var m := partners[a := b][b := a];
      DrainKeepsOthers(rest, m);
      var r := Drain(waiting, partners);
      assert r == Drain(rest, m);
      var n := |waiting| - |waiting| % 2;
      assert |rest| - |rest| % 2 == n - 2;
      assert waiting[..n] == [a, b] + rest[..n - 2];
      forall k | k !in waiting[..n]
        ensures (k in r.partners <==> k in partners) && (k in partners ==> r.partners[k] == partners[k])
      {
        assert k != a && k != b && k !in rest[..n - 2];
        assert (k in m <==> k in partners) && (k in partners ==> m[k] == partners[k]);
      }
    }
  }

  /** Draining distinct names links the names at positions 2i and 2i+1
      to each other. */
  lemma {:induction false} DrainPairs(waiting: seq<string>, partners: map<string, string>)
    requires Distinct(waiting)
    ensures forall j :: 0 <= j < |waiting| - |waiting| % 2 ==>
      PairedAt(waiting, Drain(waiting, partners).partners, j)
  {
    if |waiting| >= 2 {
      var m := partners[waiting[0] := waiting[1]][waiting[1] := waiting[0]];
      DistinctTail(waiting);
      DrainPairs(waiting[2..], m);
      forall j | 0 <= j < |waiting| - |waiting| % 2
        ensures PairedAt(waiting, Drain(waiting, partners).partners, j)
      {
        if j >= 2 {
          DrainPairsLater(waiting, partners, j);
        } else {
          FrontNotLater(waiting, j, |waiting| - |waiting| % 2);
          DrainPairsFront(waiting, partners, j);
        }
      }
    }
  }

  /** The first two names are linked to each other, and later pairs
      do not undo that. */
  lemma DrainPairsFront(waiting: seq<string>, partners: map<string, string>, j: nat)
    requires |waiting| >= 2 && waiting[0] != waiting[1] && j < 2
    requires waiting[j] !in waiting[2..|waiting| - |waiting| % 2]
    ensures PairedAt(waiting, Drain(waiting, partners).partners, j)
  {
    var rest := waiting[2..];
    var m := partners[waiting[0] := waiting[1]][waiting[1] := waiting[0]];
    assert Drain(waiting, partners) == Drain(rest, m);
    assert rest[..|rest| - |rest| % 2] == waiting[2..|waiting| - |waiting| % 2];
    DrainKeepsOthers(rest, m);
    assert m[waiting[j]] == waiting[Mate(j)];
  }

  /** A pair formed further down the queue is a pair of the whole queue,
      two positions on. */
  lemma DrainPairsLater(waiting: seq<string>, partners: map<string, string>, j: nat)
    requires 2 <= j < |waiting| - |waiting| % 2
    requires var m := partners[waiting[0] := waiting[1]][waiting[1] := waiting[0]];
      PairedAt(waiting[2..], Drain(waiting[2..], m).partners, j - 2)
    ensures PairedAt(waiting, Drain(waiting, partners).partners, j)
  {
    var rest := waiting[2..];
    var m := partners[waiting[0] := waiting[1]][waiting[1] := waiting[0]];
    assert Drain(waiting, partners) == Drain(rest, m);
    assert waiting[j] == rest[j - 2];
    assert Mate(j) - 2 == Mate(j - 2);
    assert waiting[Mate(j)] == rest[Mate(j - 2)];
  }

  /** Joining once more, after a drain, is the same as draining the
      longer list in one go. */
  lemma {:induction false} DrainThenJoin(waiting: seq<string>, partners: map<string, string>, name: string)
    ensures Join(Drain(waiting, partners), name) == Drain(waiting + [name], partners)
  {
    if |waiting| >= 2 {
      var m := partners[waiting[0] := waiting[1]][waiting[1] := waiting[0]];
      DrainThenJoin(waiting[2..], m, name);
      assert (waiting + [name])[2..] == waiting[2..] + [name];
    }
  }

  /** Names asking one after another, starting from an empty queue, are
      paired exactly as if the whole arrival sequence were drained at
      once. */
  lemma {:induction false} JoinAllIsDrain(partners: map<string, string>, names: seq<string>)
    ensures JoinAll(Pool([], partners), names) == Drain(names, partners)
  {
    if names != [] {
      var init := names[..|names| - 1];
      JoinAllIsDrain(partners, init);
      DrainThenJoin(init, partners, names[|names| - 1]);
      assert init + [names[|names| - 1]] == names;
    }
  }

  /** Arrival order decides the pairs: when distinct names ask one after
      another, the first is linked with the second, the third with the
      fourth, and so on, and at most the last one is left waiting. */
  lemma ArrivalOrderPairs(names: seq<string>)
    requires Distinct(names)
    ensures JoinAll(Pool([], map[]), names).waiting == names[|names| - |names| % 2..]
    ensures forall j :: 0 <= j < |names| - |names| % 2 ==>
      PairedAt(names, JoinAll(Pool([], map[]), names).partners, j)
  {
    JoinAllIsDrain(map[], names);
    DrainLeavesTail(names, map[]);
    DrainPairs(names, map[]);
  }

  /** get_partner does not look for the name in the queue: a name that
      asks twice while it is the only one waiting is paired with itself. */
  lemma SelfPairing(name: string, partners: map<string, string>)
    ensures Join(Join(Pool([], partners), name), name) == Pool([], partners[name := name])
  {
    assert [] + [name] == [name];
    assert Join(Pool([], partners), name) == Pool([name], partners);
    assert [name] + [name] == [name, name];
    assert [name, name][2..] == [];
    assert Drain([name, name], partners) == Drain([], partners[name := name][name := name]);
    assert partners[name := name][name := name] == partners[name := name];
  }

  /** The content of a mailbox: Python's False until a message arrives. */
  datatype Mail = Empty | Letter(body: string)

  /** What get_partner returns: the partner's name, or False. */
  datatype Partner = Unpaired | PairedWith(mate: string)

  /** What recv produces: the disconnect exception, or the mail. */
  datatype Received = Disconnected | Got(mail: Mail)

  class PairManager {
    var timeout: int
    var unpaired: seq<string>
    var partners: map<string, string>
    var mailboxes: map<string, Mail>
    var lastPing: map<string, int>

    /** Everyone who is waiting or linked has been seen at least once,
        and the queue never holds two names between calls. */
    predicate Valid()
      reads this
    {
      |unpaired| < 2 &&
      (forall i :: 0 <= i < |unpaired| ==> unpaired[i] in lastPing) &&
      (forall k :: k in partners ==> k in lastPing && partners[k] in lastPing)
    }

    constructor(timeout: int := 60)
      ensures Valid()
      ensures this.timeout == timeout
      ensures unpaired == [] && partners == map[] && mailboxes == map[] && lastPing == map[]
    {
      this.timeout := timeout;
      unpaired := [];
      partners := map[];
      mailboxes := map[];
      lastPing := map[];
    }

    /** `get_partner(name)`: queue the name, record that it was seen now,
        pair off the front of the queue, and report the name's partner
        (from this call or an earlier one) if it has one. */
    method GetPartner(name: string, now: int) returns (r: Partner)
      requires Valid()
      modifies this
      ensures Valid()
      ensures Pool(unpaired, partners) == Join(old(Pool(unpaired, partners)), name)
      ensures lastPing == old(lastPing)[name := now]
      ensures mailboxes == old(mailboxes) && timeout == old(timeout)
      ensures r.PairedWith? <==> name in partners
      ensures r.PairedWith? ==> r.mate == partners[name]
      ensures old(unpaired) == [] ==> unpaired == [name] && partners == old(partners)
      ensures |old(unpaired)| == 1 ==>
        var w := old(unpaired[0]);
        unpaired == [] && partners == old(partners)[w := name][name := w] && r == PairedWith(w)
    {
      ghost var before := Pool(unpaired + [name], partners);
      unpaired := unpaired + [name];
      lastPing := lastPing[name := now];
      while |unpaired| >= 2
        invariant Drain(unpaired, partners) == Drain(before.waiting, before.partners)
        invariant forall i :: 0 <= i < |unpaired| ==> unpaired[i] in lastPing
        invariant forall k :: k in partners ==> k in lastPing && partners[k] in lastPing
        invariant lastPing == old(lastPing)[name := now]
        invariant mailboxes == old(mailboxes) && timeout == old(timeout)
        decreases |unpaired|
      {
        var a := unpaired[0];
        unpaired := unpaired[1..];
        var b := unpaired[0];
        unpaired := unpaired[1..];
        partners := partners[a := b];
        partners := partners[b := a];
      }
      DrainLeavesTail(before.waiting, before.partners);
      if |old(unpaired)| == 1 {
        var w := old(unpaired[0]);
        assert before.waiting == [w, name];
        assert before.waiting[2..] == [];
      }
      if name in partners {
        r := PairedWith(partners[name]);
      } else {
        r := Unpaired;
      }
    }

    /** `send(name, message)`: put the message in the partner's mailbox,
        replacing anything not yet collected. */
    method Send(name: string, message: string, now: int)
      requires Valid() && name in partners
      modifies this
      ensures Valid()
      ensures mailboxes == old(mailboxes)[old(partners[name]) := Letter(message)]
      ensures lastPing == old(lastPing)[name := now]
      ensures unpaired == old(unpaired) && partners == old(partners) && timeout == old(timeout)
    {
      lastPing := lastPing[name := now];
      var partner := partners[name];
      mailboxes := mailboxes[partner := Letter(message)];
    }

    /** `recv(name)`: record that the caller was seen now; fail if the
        partner has been silent for longer than the timeout; otherwise
        hand over the mailbox content and empty the mailbox. */
    method Recv(name: string, now: int) returns (r: Received)
      requires Valid() && name in partners
      modifies this
      ensures Valid()
      ensures lastPing == old(lastPing)[name := now]
      ensures unpaired == old(unpaired) && partners == old(partners) && timeout == old(timeout)
      ensures r.Disconnected? <==> lastPing[partners[name]] < now - timeout
      ensures r.Disconnected? ==> mailboxes == old(mailboxes)
      ensures r.Got? ==> mailboxes == old(mailboxes)[name := Empty]
      ensures r.Got? ==> r.mail == if name in old(mailboxes) then old(mailboxes)[name] else Empty
    {
      lastPing := lastPing[name := now];
      if lastPing[partners[name]] < now - timeout {
        return Disconnected;
      }
      if name !in mailboxes {
        mailboxes := mailboxes[name := Empty];
      }
      var message := mailboxes[name];
      mailboxes := mailboxes[name := Empty];
      r := Got(message);
    }
  }

  /** Two participants arriving one after the other are linked to each
      other: the first waits, the second is told about the first. */
  method TwoArrivals(a: string, b: string) returns (first: Partner, second: Partner, later: Partner)
    ensures first == Unpaired
    ensures second == PairedWith(a)
    ensures later == PairedWith(b)
  {
    var m := new PairManager();
    first := m.GetPartner(a, 0);
    second := m.GetPartner(b, 1);
    later := m.GetPartner(a, 2);
  }

  /** One-slot mailbox: a second send overwrites the first message before
      it is collected, and a second recv with no send in between finds
      the mailbox empty. */
  method MailboxOverwrite(a: string, b: string, m1: string, m2: string) returns (got: Received, again: Received)
    requires a != b
    ensures got == Got(Letter(m2))
    ensures again == Got(Empty)
  {
    var m := new PairManager();
    var _ := m.GetPartner(a, 0);
    var _ := m.GetPartner(b, 0);
    m.Send(a, m1, 1);
    m.Send(a, m2, 2);
    got := m.Recv(b, 3);
    again := m.Recv(b, 4);
  }

  /** A partner silent for longer than the timeout is reported as
      disconnected, and a recv before that is not. */
  method SilentPartner(a: string, b: string) returns (early: Received, late: Received)
    requires a != b
    ensures early == Got(Empty)
    ensures late == Disconnected
  {
    var m := new PairManager();
    var _ := m.GetPartner(a, 0);
    var _ := m.GetPartner(b, 0);
    early := m.Recv(b, 60);
    late := m.Recv(b, 61);
  }

  /** A name that asks twice while alone in the queue is its own partner. */
  method AskTwice(a: string) returns (first: Partner, second: Partner)
    ensures first == Unpaired
    ensures second == PairedWith(a)
  {
    var m := new PairManager();
    first := m.GetPartner(a, 0);
    second := m.GetPartner(a, 1);
  }

  /** A name that is already linked and asks again is queued again and
      linked to the next arrival, while its old partner still names it. */
  method AskAgainWhileLinked(a: string, b: string, c: string) returns (again: Partner, stale: string)
    requires a != b && b != c && a != c
    ensures again == PairedWith(c)
    ensures stale == a
  {
    var m := new PairManager();
    var _ := m.GetPartner(a, 0);
    var _ := m.GetPartner(b, 1);
    var _ := m.GetPartner(c, 2);
    again := m.GetPartner(a, 3);
    stale := m.partners[b];
  }
}
