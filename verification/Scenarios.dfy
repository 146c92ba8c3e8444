/** The relay walk of the board's tests: from all relays open, close relays
    1 to 4 in turn, then open them in the same order. */
module Scenarios {
  import opened Errors
  import opened Bits
  import opened Transport
  import opened Modio
  import opened Handles

  /** The closing half of the walk: from all relays open, closing relays
      1 to 4 in turn passes through 0b0001, 0b0011, 0b0111, 0b1111. */
  lemma ClosingMasks()
    ensures WithRelayClosed(0, 1) == 1 && WithRelayClosed(1, 2) == 3
    ensures WithRelayClosed(3, 3) == 7 && WithRelayClosed(7, 4) == 15
  {
    SameRelaysAsNext(WithRelayClosed(0, 1), 1, 1, true);
    SameRelaysAsNext(WithRelayClosed(1, 2), 3, 2, true);
    SameRelaysAsNext(WithRelayClosed(3, 3), 7, 3, true);
    SameRelaysAsNext(WithRelayClosed(7, 4), 15, 4, true);
  }

  /** The opening half of the walk: from all relays closed, opening relays
      1 to 4 in turn passes through 0b1110, 0b1100, 0b1000, 0b0000. */
  lemma OpeningMasks()
    ensures WithRelayOpen(15, 1) == 14 && WithRelayOpen(14, 2) == 12
    ensures WithRelayOpen(12, 3) == 8 && WithRelayOpen(8, 4) == 0
  {
    SameRelaysAsNext(WithRelayOpen(15, 1), 14, 1, false);
    SameRelaysAsNext(WithRelayOpen(14, 2), 12, 2, false);
    SameRelaysAsNext(WithRelayOpen(12, 3), 8, 3, false);
    SameRelaysAsNext(WithRelayOpen(8, 4), 0, 4, false);
  }

  /** The step masks of the walk, as relay states: after step `k` of the
      closing half, relays 1..k are closed; after step `k` of the opening
      half, relays 1..k are open. */
  lemma SameRelaysAsNext(m: nat, next: nat, k: int, closing: bool)
    requires 1 <= k <= 4 && IsMask(m)
    requires closing ==> next == [0, 1, 3, 7, 15][k]
    requires !closing ==> next == [15, 14, 12, 8, 0][k]
    requires closing ==> forall q | 1 <= q <= 4 :: RelayClosed(m, q) <==> q <= k
    requires !closing ==> forall q | 1 <= q <= 4 :: RelayClosed(m, q) <==> q > k
    ensures m == next
  {
    assert BitSet(1, 0) && !BitSet(1, 1) && !BitSet(1, 2) && !BitSet(1, 3);
    assert BitSet(3, 0) && BitSet(3, 1) && !BitSet(3, 2) && !BitSet(3, 3);
    assert BitSet(7, 0) && BitSet(7, 1) && BitSet(7, 2) && !BitSet(7, 3);
    assert BitSet(15, 0) && BitSet(15, 1) && BitSet(15, 2) && BitSet(15, 3);
    assert !BitSet(14, 0) && BitSet(14, 1) && BitSet(14, 2) && BitSet(14, 3);
    assert !BitSet(12, 0) && !BitSet(12, 1) && BitSet(12, 2) && BitSet(12, 3);
    assert !BitSet(8, 0) && !BitSet(8, 1) && !BitSet(8, 2) && BitSet(8, 3);
    assert !BitSet(0, 0) && !BitSet(0, 1) && !BitSet(0, 2) && !BitSet(0, 3);
    MaskDeterminedByRelays(m, next);
  }

  /** The walk on a board behind the fake bus: every write goes through,
      each step closes (then opens) exactly the relay it names, and the cached
      mask after each step is the one ClosingMasks and OpeningMasks name. */
  method FakeBoardRelayWalk() returns (masks: seq<nat>)
    ensures masks == [1, 3, 7, 15, 14, 12, 8, 0]
  {
    var created := Device.Open(kind := Fake);
    var board := created.value;
    ClosingMasks();
    OpeningMasks();
    var m1 := CloseAndRead(board, 1);
    var m2 := CloseAndRead(board, 2);
    var m3 := CloseAndRead(board, 3);
    var m4 := CloseAndRead(board, 4);
    var m5 := OpenAndRead(board, 1);
    var m6 := OpenAndRead(board, 2);
    var m7 := OpenAndRead(board, 3);
    var m8 := OpenAndRead(board, 4);
    masks := [m1, m2, m3, m4, m5, m6, m7, m8];
  }

  /** One closing step of the walk on the fake bus: the relay was open, is
      closed afterwards, and the new cached mask is returned. */
  method CloseAndRead(board: Device, relay: int) returns (mask: nat)
    requires board.Valid() && board.communicator.kind == Fake && 1 <= relay <= 4
    modifies board`relayStatus, board.communicator`log
    ensures board.Valid() && mask == board.relayStatus
    ensures mask == WithRelayClosed(old(board.relayStatus), relay)
  {
    var _ := board.CloseContactRelay(relay);
    var closed := board.IsRelayClosed(relay);
    assert closed == Success(true);
    mask := board.GetRelays();
  }

  /** One opening step of the walk on the fake bus. */
  method OpenAndRead(board: Device, relay: int) returns (mask: nat)
    requires board.Valid() && board.communicator.kind == Fake && 1 <= relay <= 4
    modifies board`relayStatus, board.communicator`log
    ensures board.Valid() && mask == board.relayStatus
    ensures mask == WithRelayOpen(old(board.relayStatus), relay)
  {
    var _ := board.OpenContactRelay(relay);
    var closed := board.IsRelayClosed(relay);
    assert closed == Success(false);
    mask := board.GetRelays();
  }

  /** A `Relay` handle refuses the numbers 0, -1 and 5 at creation. */
  method RelayHandleRejects(board: Device) returns (errors: seq<Error>)
    ensures errors == [ValueError, ValueError, ValueError]
  {
    var zero := Relay.Create(board, 0);
    var minusOne := Relay.Create(board, -1);
    var five := Relay.Create(board, 5);
    errors := [zero.error, minusOne.error, five.error];
  }
}
