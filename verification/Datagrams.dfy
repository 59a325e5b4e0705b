/** What the receive path moves: datagrams, the groups the kernel may queue them in, and what core is handed. */
module Datagrams {
  import opened Sequences

  /** The two receive sockets: broadcasts land on the well-known one, unicast on the context's own data socket. */
  datatype Sock = WellKnown | Data

  /** One value per socket. */
  datatype Per<T> = Per(wellKnown: T, data: T) {
    function At(s: Sock): T {
      if s == WellKnown then wellKnown else data
    }

    function With(s: Sock, value: T): Per<T> {
      if s == WellKnown then this.(wellKnown := value) else this.(data := value)
    }
  }

  /** `id` tells datagrams apart; `large` is what gro_large_fragment() answers for the datagram's framing. */
  datatype Datagram = Datagram(id: nat, bytes: nat, large: bool)

  /** What the kernel queues as one buffer: one datagram, or with UDP_GRO a merged run of them. */
  type Group = seq<Datagram>

  /** One thing taken off a socket and finished with: given to core as one datagram, or `lost` (cut by the drain). */
  datatype Hand = Hand(group: Group, lost: bool)

  function Bytes(g: Group): nat {
    if g == [] then 0 else g[0].bytes + Bytes(g[1..])
  }

  function Flat(groups: seq<Group>): seq<Datagram> {
    if groups == [] then [] else groups[0] + Flat(groups[1..])
  }

  /** The datagrams in a history of hands, in order. */
  function Handed(hands: seq<Hand>): seq<Datagram> {
    if hands == [] then [] else Handed(hands[..|hands| - 1]) + hands[|hands| - 1].group
  }

  /** The datagrams core was given, the lost ones left out. */
  function Delivered(hands: seq<Hand>): seq<Datagram> {
    if hands == [] then []
    else Delivered(hands[..|hands| - 1]) + if hands[|hands| - 1].lost then [] else hands[|hands| - 1].group
  }

  function Losses(hands: seq<Hand>): nat {
    if hands == [] then 0 else Losses(hands[..|hands| - 1]) + if hands[|hands| - 1].lost then 1 else 0
  }

  lemma {:induction false} FlatAppend(groups: seq<Group>, g: Group)
    ensures Flat(groups + [g]) == Flat(groups) + g
  {
    if groups == [] {
      assert groups + [g] == [g];
    } else {
      FlatAppend(groups[1..], g);
      Appended(groups, g);
      Assoc(groups[0], Flat(groups[1..]), g);
    }
  }

  lemma HandedAppend(hands: seq<Hand>, h: Hand)
    ensures Handed(hands + [h]) == Handed(hands) + h.group
    ensures Delivered(hands + [h]) == Delivered(hands) + if h.lost then [] else h.group
    ensures Losses(hands + [h]) == Losses(hands) + if h.lost then 1 else 0
  {
    Appended(hands, h);
  }
}
