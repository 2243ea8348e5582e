/** The table of event handlers: one flat array indexed by descriptor and event id. */
module HandlerTable {

  const MAX_FILE_DESCRIPTORS := 65536

  datatype Slot = Empty | Handler(id: nat)

  datatype Kind = Read | Write | Close

  /** The bit of an event type that stands for a kind. */
  function Bit(k: Kind): nat
  {
    match k case Read => 1 case Write => 2 case Close => 4
  }

  predicate Has(mask: nat, k: Kind)
  {
    mask / Bit(k) % 2 == 1
  }

  const LOOK_UP_TABLE: seq<int> := [-1, 0, 1, 1, 2, 2, 2, 2]

  function EventTypeToEventId(mask: nat): int
  {
    LOOK_UP_TABLE[mask % 8]
  }

  function IdOf(k: Kind): nat
  {
    match k case Read => 0 case Write => 1 case Close => 2
  }

  /** The kind that a mask with a known bit is looked up under: close, else write, else read. */
  function FirstKind(mask: nat): Kind
  {
    if Has(mask, Close) then Close else if Has(mask, Write) then Write else Read
  }

  /** Any mask has the id of its close bit, else of its write bit, else of its read bit; without these it has -1. */
  lemma IdOfMask(mask: nat)
    ensures EventTypeToEventId(mask)
         == if exists k :: Has(mask, k) then IdOf(FirstKind(mask)) else -1
  {
    LowBits(mask);
    LookedUp(mask % 8);
    hide Has;
    assert (mask % 8) % 8 == mask % 8;
  }

  lemma LookedUp(low: nat)
    requires low < 8
    ensures LOOK_UP_TABLE[low] == if low == 0 then -1 else IdOf(FirstKind(low))
  {
    assert low in {0, 1, 2, 3, 4, 5, 6, 7};
  }

  lemma LowBit(q: nat, low: nat, k: Kind)
    requires low < 8
    ensures Has(8 * q + low, k) <==> Has(low, k)
  {
    match k {
      case Read => assert (8 * q + low) / 1 == 2 * (4 * q) + low;
      case Write => assert (8 * q + low) / 2 == 2 * (2 * q) + low / 2;
      case Close => assert (8 * q + low) / 4 == 2 * q + low / 4;
    }
  }

  lemma SomeBit(low: nat)
    requires low < 8
    ensures Has(low, Read) || Has(low, Write) || Has(low, Close) || low == 0
    ensures low == 0 ==> forall k :: !Has(low, k)
  {
  }

  /** Only the three lowest bits of a mask stand for kinds. */
  lemma LowBits(mask: nat)
    ensures forall k :: Has(mask, k) <==> Has(mask % 8, k)
    ensures (exists k :: Has(mask, k)) <==> mask % 8 != 0
  {
    hide Has;
    assert mask == 8 * (mask / 8) + mask % 8;
    forall k ensures Has(mask, k) <==> Has(mask % 8, k) {
      LowBit(mask / 8, mask % 8, k);
    }
    SomeBit(mask % 8);
  }

  /** The place of a descriptor's handler for a mask: the bits of 4 * fd and of the id together, which are those of
      -1 when the id is -1. */
  function EventIndex(fd: nat, mask: nat): int
  {
    var id := EventTypeToEventId(mask);
    if id == -1 then -1 else 4 * fd + id
  }

  /** An event is looked up inside the table, at its descriptor's entry for a kind, exactly when its mask has the bit
      of a kind; a mask such as 8 is looked up in front of the table. */
  lemma IndexInTableIff(fd: nat, mask: nat)
    requires fd < MAX_FILE_DESCRIPTORS
    ensures 0 <= EventIndex(fd, mask) < 4 * MAX_FILE_DESCRIPTORS <==> exists k :: Has(mask, k)
    ensures (exists k :: Has(mask, k)) ==> EventIndex(fd, mask) == 4 * fd + IdOf(FirstKind(mask))
    ensures EventIndex(fd, 8) == -1
  {
    IdOfMask(mask);
    IdOfMask(8);
    LowBits(8);
  }

  datatype Op = Op(fd: nat, mask: nat, handler: Slot)

  /** What was last attached for a descriptor and a kind. */
  function Last(ops: seq<Op>, fd: nat, k: Kind): Slot
  {
    if ops == [] then Empty else
      var op := ops[|ops| - 1];
      if op.fd == fd && Has(op.mask, k) then op.handler else Last(ops[..|ops| - 1], fd, k)
  }

  lemma LastMore(ops: seq<Op>, op: Op, fd: nat, k: Kind)
    ensures Last(ops + [op], fd, k) == if op.fd == fd && Has(op.mask, k) then op.handler else Last(ops, fd, k)
  {
    assert (ops + [op])[..|ops|] == ops;
  }

  /** Attaching and detaching on other descriptors, or for other kinds, changes nothing for this one. */
  lemma {:induction false} OthersDoNotMatter(ops: seq<Op>, more: seq<Op>, fd: nat, k: Kind)
    requires forall j :: 0 <= j < |more| ==> more[j].fd != fd || !Has(more[j].mask, k)
    ensures Last(ops + more, fd, k) == Last(ops, fd, k)
  {
    if more == [] {
      assert ops + more == ops;
    } else {
      var n := |more| - 1;
      OthersDoNotMatter(ops, more[..n], fd, k);
      LastMore(ops + more[..n], more[n], fd, k);
      assert ops + more == ops + more[..n] + [more[n]];
    }
  }

  class EventHandlerManager {
    const list: array<Slot>
    ghost var ops: seq<Op>

    ghost predicate Valid()
      reads this, list
    {
      && list.Length == 4 * MAX_FILE_DESCRIPTORS
      && forall fd: nat, k: Kind :: fd < MAX_FILE_DESCRIPTORS ==> list[4 * fd + IdOf(k)] == Last(ops, fd, k)
    }

    constructor ()
      ensures Valid() && ops == [] && fresh(list)
    {
      list := new Slot[4 * MAX_FILE_DESCRIPTORS](_ => Empty);
      ops := [];
    }

    method SetEventHandler(fd: nat, mask: nat, handler: Slot)
      requires Valid() && fd < MAX_FILE_DESCRIPTORS
      modifies this, list
      ensures Valid() && ops == old(ops) + [Op(fd, mask, handler)]
    {
      ops := ops + [Op(fd, mask, handler)];
      if mask % 2 == 1 {
        list[4 * fd] := handler;
      }
      if mask / 2 % 2 == 1 {
        list[4 * fd + 1] := handler;
      }
      if mask / 4 % 2 == 1 {
        list[4 * fd + 2] := handler;
      }
      forall g: nat, k: Kind | g < MAX_FILE_DESCRIPTORS ensures list[4 * g + IdOf(k)] == Last(ops, g, k) {
        LastMore(old(ops), Op(fd, mask, handler), g, k);
        assert old(list[4 * g + IdOf(k)]) == Last(old(ops), g, k);
      }
    }

    method AttachEventHandler(fd: nat, mask: nat, handler: Slot)
      requires Valid() && fd < MAX_FILE_DESCRIPTORS
      modifies this, list
      ensures Valid() && ops == old(ops) + if handler == Empty then [] else [Op(fd, mask, handler)]
    {
      if handler != Empty {
        SetEventHandler(fd, mask, handler);
      }
    }

    method DetachEventHandler(fd: nat, mask: nat)
      requires Valid() && fd < MAX_FILE_DESCRIPTORS
      modifies this, list
      ensures Valid() && ops == old(ops) + [Op(fd, mask, Empty)]
    {
      SetEventHandler(fd, mask, Empty);
    }

    /** The handler that runs, and as what.  An event of one kind reaches the handler last attached for it; an event
        of several kinds finds a handler, which then does nothing; a mask without any known bit is looked up
        outside the table (`wild`). */
    method HandleEvent(fd: nat, mask: nat) returns (ran: seq<(nat, Kind)>, wild: bool)
      requires Valid() && fd < MAX_FILE_DESCRIPTORS
      ensures wild <==> mask != 0 && forall k :: !Has(mask, k)
      ensures forall k: Kind :: mask == Bit(k) ==>
        ran == if Last(ops, fd, k) == Empty then [] else [(Last(ops, fd, k).id, k)]
      ensures mask !in {1, 2, 4} ==> ran == []
    {
      LowBits(mask);
      ran, wild := [], false;
      if mask == 0 {
        return;
      }
      var index := EventIndex(fd, mask);
      IndexInTableIff(fd, mask);
      if index < 0 || index >= list.Length {
        wild := true;
        return;
      }
      var slot := list[index];
      if slot.Handler? {
        if mask == 4 {
          ran := [(slot.id, Close)];
        } else if mask == 1 {
          ran := [(slot.id, Read)];
        } else if mask == 2 {
          ran := [(slot.id, Write)];
        }
      }
      forall k: Kind | mask == Bit(k)
        ensures ran == if Last(ops, fd, k) == Empty then [] else [(Last(ops, fd, k).id, k)]
      {
        assert list[4 * fd + IdOf(k)] == Last(ops, fd, k);
      }
    }
  }
}
