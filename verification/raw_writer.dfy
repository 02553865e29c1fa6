// process_rx_ref of xcom_core/src/io/log_writer.cpp: one received segment written to the log
// file, retried through short and failing writes until it is out or the writer must stop.
module RawWriter {
  import opened Bytes

  // One turn of the retry loop: whether `stopping` was set at its head, and what WriteFile did.
  datatype Attempt = Attempt(stopping: bool, ok: bool, count: nat)

  // How far the retry loop gets. Running out of attempts means the writer was stopped.
  function Kept(size: nat, offset: nat, attempts: seq<Attempt>): (k: nat)
    requires offset <= size
    ensures offset <= k <= size
    decreases |attempts|
  {
    if offset == size || attempts == [] || attempts[0].stopping then offset
    else
      var n := if attempts[0].ok then Min(attempts[0].count, size - offset) else 0;
      Kept(size, offset + n, attempts[1..])
  }

  // What the file system would have taken before the stop.
  function Offered(attempts: seq<Attempt>): nat {
    if attempts == [] || attempts[0].stopping then 0
    else (if attempts[0].ok then attempts[0].count else 0) + Offered(attempts[1..])
  }

  // No failure and no short write costs a byte: the segment is cut only where the writer was
  // stopped before the file system had taken all of it.
  lemma {:induction false} KeptIsOffered(size: nat, offset: nat, attempts: seq<Attempt>)
    requires offset <= size
    ensures Kept(size, offset, attempts) == Min(size, offset + Offered(attempts))
    decreases |attempts|
  {
    if offset < size && attempts != [] && !attempts[0].stopping {
      var n := if attempts[0].ok then Min(attempts[0].count, size - offset) else 0;
      KeptIsOffered(size, offset + n, attempts[1..]);
    }
  }

  function Flat(segments: seq<seq<byte>>): seq<byte> {
    if segments == [] then [] else Flat(segments[..|segments| - 1]) + segments[|segments| - 1]
  }

  class Log {
    var open: bool
    var content: seq<byte>
    var rejected: nat                // save_rejected_bytes

    constructor ()
      ensures !open && content == [] && rejected == 0
    {
      open, content, rejected := false, [], 0;
    }

    // Every byte of the segment ends in the file or in the loss ledger, never in both.
    method ProcessRxRef(data: seq<byte>, attempts: seq<Attempt>)
      modifies this`content, this`rejected
      ensures open ==> content == old(content) + data[..Kept(|data|, 0, attempts)]
      ensures open ==> rejected == old(rejected) + |data| - Kept(|data|, 0, attempts)
      ensures !open ==> content == old(content) && rejected == old(rejected) + |data|
    {
      if data == [] {
        assert old(content) + data[..0] == old(content);
        return;
      }
      if !open {
        rejected := rejected + |data|;
        return;
      }
      var offset, turn := 0, 0;
      assert content + data[..0] == content;
      while offset < |data| && turn < |attempts| && !attempts[turn].stopping
        invariant 0 <= offset <= |data| && 0 <= turn <= |attempts|
        invariant content == old(content) + data[..offset] && rejected == old(rejected)
        invariant Kept(|data|, 0, attempts) == Kept(|data|, offset, attempts[turn..])
        decreases |attempts| - turn
      {
        var a := attempts[turn];
        turn := turn + 1;
        if !a.ok || a.count == 0 {
          continue;
        }
        var n := if a.count < |data| - offset then a.count else |data| - offset;
        assert content + data[offset..offset + n] == old(content) + data[..offset + n];
        content := content + data[offset..offset + n];
        offset := offset + n;
      }
      if offset < |data| { rejected := rejected + (|data| - offset); }
    }

    // flush_rx_before_close: every queued segment goes to the file that is about to close, in
    // order, and all of it if the file system takes it before the writer is stopped.
    method FlushBeforeClose(ring: seq<seq<byte>>, attempts: seq<seq<Attempt>>)
      requires open && |attempts| == |ring|
      modifies this`content, this`rejected
      ensures (forall i :: 0 <= i < |ring| ==> Offered(attempts[i]) >= |ring[i]|) ==>
                content == old(content) + Flat(ring) && rejected == old(rejected)
    {
      var i := 0;
      assert content + Flat(ring[..0]) == content;
      while i < |ring|
        invariant 0 <= i <= |ring|
        invariant (forall k :: 0 <= k < |ring| ==> Offered(attempts[k]) >= |ring[k]|) ==>
                    content == old(content) + Flat(ring[..i]) && rejected == old(rejected)
      {
        ProcessRxRef(ring[i], attempts[i]);
        KeptIsOffered(|ring[i]|, 0, attempts[i]);
        assert ring[..i + 1][..i] == ring[..i] && ring[i][..|ring[i]|] == ring[i];
        assert (old(content) + Flat(ring[..i])) + ring[i] == old(content) + (Flat(ring[..i]) + ring[i]);
        i := i + 1;
      }
      assert ring[..i] == ring;
    }
  }
}
