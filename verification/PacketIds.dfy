/** Packet identifiers: `allocPacketId` on its wrapping 16-bit counter. */
module PacketIds {
  import opened Prelude

  /** The identifier that the n-th increment hands out, counting from the counter's zero. */
  function IdOf(ticket: nat): u16 { ticket % 0x1_0000 }

  // ---- One caller at a time ----

  class PacketIdCounter {
    var nextPacketId: u16
    ghost var increments: nat       // the counter without its wrap-around

    ghost predicate Valid()
      reads this
    {
      nextPacketId == IdOf(increments)
    }

    constructor ()
      ensures Valid() && increments == 1
    {
      nextPacketId, increments := 1, 1;
    }

    method FetchAdd() returns (id: u16)
      requires Valid()
      modifies this
      ensures Valid() && id == IdOf(old(increments)) && increments == old(increments) + 1
    {
      id := nextPacketId;
      nextPacketId := (nextPacketId + 1) % 0x1_0000;
      increments := increments + 1;
    }

    /** Undisturbed, the second increment is enough: the identifier is never 0. */
    method AllocPacketId() returns (id: u16)
      requires Valid()
      modifies this
      ensures Valid() && id != 0
      ensures increments == old(increments) + (if IdOf(old(increments)) == 0 then 2 else 1)
      ensures id == IdOf(increments - 1)
    {
      id := FetchAdd();
      if id == 0 { id := FetchAdd(); }
    }

    /** The k-th identifier handed out to a single caller is 1 + (k mod 65535). */
    method AllocMany(count: nat) returns (ids: seq<u16>)
      requires Valid() && increments == 1
      modifies this
      ensures |ids| == count && forall k :: 0 <= k < count ==> ids[k] == SequentialId(k)
    {
      ids := [];
      while |ids| < count
        invariant Valid() && |ids| <= count
        invariant increments == IncrementsAfter(|ids|)
        invariant forall k :: 0 <= k < |ids| ==> ids[k] == SequentialId(k)
      {
        SequentialStep(|ids|);
        var id := AllocPacketId();
        ids := ids + [id];
      }
    }
  }

  function SequentialId(k: nat): u16 { 1 + k % 0xFFFF }

  /** The unwrapped counter after k undisturbed allocations: each full round skips one zero. */
  function IncrementsAfter(k: nat): nat {
    if k == 0 then 1 else 1 + k + (k - 1) / 0xFFFF
  }

  lemma SequentialStep(k: nat)
    ensures var c := IncrementsAfter(k);
      && IncrementsAfter(k + 1) == c + (if IdOf(c) == 0 then 2 else 1)
      && IdOf(IncrementsAfter(k + 1) - 1) == SequentialId(k)
  {
    if k > 0 {
      var q, r := (k - 1) / 0xFFFF, (k - 1) % 0xFFFF;
      assert k - 1 == q * 0xFFFF + r;
      var c := IncrementsAfter(k);
      assert c == q * 0x1_0000 + r + 2;
      if r < 0xFFFE {
        assert c % 0x1_0000 == r + 2;
        assert k / 0xFFFF == q && k % 0xFFFF == r + 1;
      } else {
        assert c == (q + 1) * 0x1_0000;
        assert k / 0xFFFF == q + 1 && k % 0xFFFF == 0;
      }
    }
  }

  /** So any 65535 consecutive identifiers are distinct and none is 0. */
  lemma ConsecutiveIdsDiffer(i: nat, j: nat)
    requires i < j < i + 0xFFFF
    ensures SequentialId(i) != SequentialId(j) && SequentialId(i) != 0
  {
  }

  // ---- Any interleaving of increments ----

  /** An allocation's first increment and the one whose value it kept. */
  datatype Grant = Grant(origin: nat, ticket: nat) {
    function Id(): u16 { IdOf(ticket) }

    /** It took its first increment, or a later one because the first gave 0. */
    predicate Valid(counter: nat) {
      && origin <= ticket < counter
      && (if IdOf(origin) == 0 then origin < ticket else ticket == origin)
    }

    /** Fewer than 65536 increments since its own first one. */
    predicate Recent(counter: nat) { counter <= origin + 0x1_0000 }
  }

  /** Within such a window identifiers are not 0, and two allocations never share one. */
  lemma RecentGrants(g: Grant, h: Grant, counter: nat)
    requires g.Valid(counter) && g.Recent(counter)
    ensures g.Id() != 0
    ensures h.Valid(counter) && h.Recent(counter) && h.ticket != g.ticket ==> h.Id() != g.Id()
  {
  }

  /** Two tickets give the same identifier if and only if they lie a multiple of 65536 apart. */
  lemma SameId(t: nat, u: nat)
    ensures IdOf(t) == IdOf(u) <==> (u - t) % 0x1_0000 == 0
  {
  }

  /** The window is needed: 65536 increments after it an identifier comes back. */
  lemma IdsComeBack(g: Grant)
    ensures IdOf(g.ticket + 0x1_0000) == g.Id()
  {
  }
}
