// The transmit descriptors in place: the driver fills the descriptor at p_txbd once the
// hardware has released it, the hardware sends from its own pointer on.
module TxRing {
  import opened Descriptors

  const TX_SIZE := SIZE

  const READY: bv16 := 0x8000
  const LAST: bv16 := 0x0800
  const TRANSMIT_CRC: bv16 := 0x0400

  const MAX_FRAME_LEN := 1522

  lemma TxBits(s: bv16)
    ensures ((s & WRAP) | TRANSMIT_CRC | LAST | READY) & READY != 0
    ensures ((s & WRAP) | TRANSMIT_CRC | LAST | READY) & WRAP == s & WRAP
    ensures (s & !READY) & READY == 0 && (s & !READY) & WRAP == s & WRAP
  {
  }

  // The hardware sends the one buffer as a whole frame and appends the frame checksum.
  predicate WholeFrame(s: bv16) { s & READY != 0 && s & LAST != 0 && s & TRANSMIT_CRC != 0 }

  // The flags in the numbers of the hardware.
  lemma SendBits(s: bv16)
    ensures WholeFrame(s) <==> s & 0x8c00 == 0x8c00
    ensures WholeFrame((s & WRAP) | TRANSMIT_CRC | LAST | READY)
    ensures (s & WRAP) | TRANSMIT_CRC | LAST | READY == (s & 0x2000) | 0x8c00
  {
  }

  // The ready descriptors are one cyclic run starting where the hardware stands, and
  // hold the waiting frames in order.
  ghost predicate Queue(st: seq<bv16>, dt: seq<seq<bv8>>, hw: nat, waiting: seq<seq<bv8>>) {
    && |st| == |dt| == TX_SIZE && hw < TX_SIZE && |waiting| <= TX_SIZE
    && (forall j :: 0 <= j < |waiting| ==> WholeFrame(st[At(hw, j)]) && dt[At(hw, j)] == waiting[j])
    && (forall j :: |waiting| <= j < TX_SIZE ==> st[At(hw, j)] & READY == 0)
  }

  lemma QueueFull(st: seq<bv16>, dt: seq<seq<bv8>>, hw: nat, waiting: seq<seq<bv8>>)
    requires Queue(st, dt, hw, waiting)
    ensures st[At(hw, |waiting|)] & READY == 0 <==> |waiting| < TX_SIZE
  {
    if |waiting| == TX_SIZE {
      assert At(hw, |waiting|) == At(hw, 0) && st[At(hw, 0)] & READY != 0;
    }
  }

  lemma QueuePut(st: seq<bv16>, dt: seq<seq<bv8>>, hw: nat, waiting: seq<seq<bv8>>, s: bv16, frame: seq<bv8>)
    requires Queue(st, dt, hw, waiting) && |waiting| < TX_SIZE && WholeFrame(s)
    ensures var bd := At(hw, |waiting|);
            Queue(st[bd := s], dt[bd := frame], hw, waiting + [frame]) && At(bd, 1) == At(hw, |waiting + [frame]|)
  {
    forall j | 0 <= j < TX_SIZE && j != |waiting|
      ensures At(hw, j) != At(hw, |waiting|)
    {
      AtDistinct(hw, j, |waiting|);
    }
    AtNext(hw, |waiting|);
  }

  lemma QueueTake(st: seq<bv16>, dt: seq<seq<bv8>>, hw: nat, waiting: seq<seq<bv8>>, s: bv16)
    requires Queue(st, dt, hw, waiting) && waiting != [] && s & READY == 0
    ensures Queue(st[hw := s], dt, At(hw, 1), waiting[1..]) && dt[hw] == waiting[0]
    ensures At(At(hw, 1), |waiting[1..]|) == At(hw, |waiting|)
  {
    var q := At(hw, 1);
    assert hw == At(hw, 0);
    forall j | 0 <= j < TX_SIZE - 1
      ensures At(q, j) == At(hw, j + 1) && At(q, j) != hw
    {
      AtDistinct(hw, j + 1, 0);
    }
    assert At(q, TX_SIZE - 1) == hw;
  }

  lemma ShiftOne(sent: seq<seq<bv8>>, waiting: seq<seq<bv8>>)
    requires waiting != []
    ensures sent + [waiting[0]] + waiting[1..] == sent + waiting
  {
  }

  function Clear(st: seq<bv16>, hw: nat): seq<bv16>
    requires hw < |st|
  {
    st[hw := st[hw] & !READY]
  }

  // All of what releasing the oldest descriptor keeps.
  lemma Released(st: seq<bv16>, dt: seq<seq<bv8>>, hw: nat, waiting: seq<seq<bv8>>, sent: seq<seq<bv8>>)
    requires Wraps(st) && Queue(st, dt, hw, waiting) && waiting != []
    ensures Wraps(Clear(st, hw)) && Queue(Clear(st, hw), dt, At(hw, 1), waiting[1..]) && dt[hw] == waiting[0]
    ensures At(At(hw, 1), |waiting[1..]|) == At(hw, |waiting|)
    ensures sent + [waiting[0]] + waiting[1..] == sent + waiting
  {
    var s := st[hw] & !READY;
    TxBits(st[hw]);
    QueueTake(st, dt, hw, waiting, s);
    WrapsStay(st, hw, s);
    ShiftOne(sent, waiting);
  }

  class TxRing {
    const status: array<bv16>
    const data: array<seq<bv8>>
    var txbd: nat  // p_txbd, as an index
    var hw: nat
    ghost var queued: seq<seq<bv8>>
    ghost var sent: seq<seq<bv8>>
    ghost var waiting: seq<seq<bv8>>

    // What was queued is what was sent and then what waits: in order, each once.
    ghost predicate Valid()
      reads this, status, data
    {
      && status as object != data && Wraps(status[..])
      && Queue(status[..], data[..], hw, waiting) && txbd == At(hw, |waiting|)
      && queued == sent + waiting
    }

    constructor ()
      ensures Valid() && queued == [] && fresh(status) && fresh(data)
      ensures status.Length == 5 && forall i :: 0 <= i < 5 ==> status[i] == if i == 4 then 0x2400 else 0x0400
    {
      status := new bv16[TX_SIZE](i => if i == TX_SIZE - 1 then TRANSMIT_CRC | WRAP else TRANSMIT_CRC);
      data := new seq<bv8>[TX_SIZE](_ => []);
      txbd, hw, queued, sent, waiting := 0, 0, [], [], [];
    }

    // Hardware: sends the next frame, if one is ready, and releases its descriptor.
    method Transmit()
      requires Valid()
      modifies this`hw, this`sent, this`waiting, status
      ensures Valid() && txbd == old(txbd)
      ensures old(waiting) != [] ==> WholeFrame(old(status[hw]))
      ensures if old(waiting) == [] then sent == old(sent) && waiting == []
              else sent == old(sent) + [old(waiting)[0]] && waiting == old(waiting)[1..]
    {
      assert hw == At(hw, 0) && status[..][hw] == status[hw];
      if status[hw] & READY != 0 {
        Release();
      }
    }

    method Release()
      requires Valid() && waiting != []
      modifies this`hw, this`sent, this`waiting, status
      ensures Valid() && sent == old(sent) + [old(waiting)[0]] && waiting == old(waiting)[1..]
    {
      ghost var st := status[..];
      Released(st, data[..], hw, waiting, sent);
      sent := sent + [data[hw]];
      waiting := waiting[1..];
      ClearReady();
      hw := After(status, hw);
    }

    method ClearReady()
      requires status.Length == TX_SIZE && hw < TX_SIZE
      modifies status
      ensures status[..] == Clear(old(status[..]), hw)
    {
      status[hw] := status[hw] & !READY;
    }

    // get_bufdesc: waits until the descriptor at p_txbd is free. One entry of polls per
    // look, true when the hardware has sent a frame before it; no entry left stands for
    // waiting for ever.
    method GetBufdesc(polls: seq<bool>) returns (free: bool)
      requires Valid()
      modifies this`hw, this`sent, this`waiting, status
      ensures Valid() && txbd == old(txbd) && queued == old(queued) && old(sent) <= sent
      ensures free ==> |waiting| < TX_SIZE
      ensures !free ==> |waiting| == TX_SIZE && waiting == old(waiting) && forall k :: 0 <= k < |polls| ==> !polls[k]
    {
      var i := 0;
      free := IsFree();
      while !free && i < |polls|
        invariant Valid() && i <= |polls| && old(sent) <= sent
        invariant free <==> |waiting| < TX_SIZE
        invariant !free ==> waiting == old(waiting) && forall k :: 0 <= k < i ==> !polls[k]
      {
        if polls[i] {
          Transmit();
        }
        free := IsFree();
        i := i + 1;
      }
    }

    method IsFree() returns (free: bool)
      requires Valid()
      ensures free <==> |waiting| < TX_SIZE
    {
      QueueFull(status[..], data[..], hw, waiting);
      assert status[..][txbd] == status[txbd];
      free := status[txbd] & READY == 0;
    }

    // update_bufdesc, with the frame copied into the descriptor's buffer.
    method UpdateBufdesc(frame: seq<bv8>)
      requires Valid() && |waiting| < TX_SIZE
      modifies this`txbd, this`queued, this`waiting, status, data
      ensures Valid() && queued == old(queued) + [frame] && waiting == old(waiting) + [frame]
      ensures status[..] == old(status[..])[old(txbd) := (old(status[txbd]) & 0x2000) | 0x8c00]
      ensures data[..] == old(data[..])[old(txbd) := frame]
    {
      ghost var st, dt := status[..], data[..];
      var bd := txbd;
      var s := (status[bd] & WRAP) | TRANSMIT_CRC | LAST | READY;
      TxBits(status[bd]);
      SendBits(status[bd]);
      QueuePut(st, dt, hw, waiting, s, frame);
      WrapsStay(st, bd, s);
      data[bd] := frame;
      status[bd] := s;
      assert status[..] == st[bd := s] && data[..] == dt[bd := frame];
      txbd := After(status, bd);
      queued := queued + [frame];
      waiting := waiting + [frame];
      assert sent + (old(waiting) + [frame]) == (sent + old(waiting)) + [frame];
    }

    // enet_output_frame: too short or too long a frame is refused, any other is queued
    // once a descriptor is free.
    method OutputFrame(initialized: bool, frame: seq<bv8>, polls: seq<bool>) returns (ok: bool)
      requires Valid()
      modifies this`txbd, this`hw, this`queued, this`sent, this`waiting, status, data
      ensures Valid() && old(sent) <= sent
      ensures ok ==> initialized && 60 <= |frame| <= 1518
      ensures queued == old(queued) + if ok then [frame] else []
      ensures initialized && 60 <= |frame| <= 1518 && (exists k :: 0 <= k < |polls| && polls[k]) ==> ok
    {
      if !initialized {
        return false;
      }
      if |frame| < 60 || MAX_FRAME_LEN - 4 < |frame| {
        return false;
      }
      ok := GetBufdesc(polls);
      if ok {
        UpdateBufdesc(frame);
      }
    }
  }
}
