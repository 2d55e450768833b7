// app/api/webhooks.py, _run_stt_fallback_voice_stream: buffering of a Twilio
// media stream into chunks for transcription.
module VoiceStream {
  import opened Wrappers

  type Bytes = seq<bv8>

  // One received frame. A media frame carries its decoded payload, or None when
  // it has none or the base64 is malformed. `Other` covers connected, start,
  // unknown events and frames that are not JSON.
  datatype Frame = Media(payload: Option<Bytes>) | Stop | Disconnect | Other

  function Payload(f: Frame): Bytes {
    if f.Media? && f.payload.Some? then f.payload.value else []
  }

  // Index of the frame that ends the stream, or the length when none does.
  function EndOf(frames: seq<Frame>, i: nat): (e: nat)
    requires i <= |frames|
    ensures i <= e <= |frames|
    ensures forall k :: i <= k < e ==> frames[k] != Stop && frames[k] != Disconnect
    ensures e < |frames| ==> frames[e] == Stop || frames[e] == Disconnect
    decreases |frames| - i
  {
    if i == |frames| || frames[i] == Stop || frames[i] == Disconnect then i else EndOf(frames, i + 1)
  }

  // Everything decoded from the first n frames, in order.
  function Received(frames: seq<Frame>, n: nat): Bytes
    requires n <= |frames|
  {
    if n == 0 then [] else Received(frames, n - 1) + Payload(frames[n - 1])
  }

  function Concat(chunks: seq<Bytes>, n: nat): Bytes
    requires n <= |chunks|
  {
    if n == 0 then [] else Concat(chunks, n - 1) + chunks[n - 1]
  }

  lemma {:induction false} ConcatPrefix(a: seq<Bytes>, b: seq<Bytes>, n: nat)
    requires n <= |a| && n <= |b| && forall i :: 0 <= i < n ==> a[i] == b[i]
    ensures Concat(a, n) == Concat(b, n)
  {
    if n > 0 {
      ConcatPrefix(a, b, n - 1);
    }
  }

  lemma {:induction false} ConcatAppend(chunks: seq<Bytes>, c: Bytes)
    ensures Concat(chunks + [c], |chunks| + 1) == Concat(chunks, |chunks|) + c
  {
    ConcatPrefix(chunks + [c], chunks, |chunks|);
  }

  function Max(a: int, b: int): int { if a < b then b else a }

  class Stream {
    const identified: bool  // phone and call_sid are both non-empty
    const threshold: int
    var buf: Bytes
    var processing: bool
    var flushed: seq<Bytes>  // chunks handed to the transcriber, in order

    constructor (identified: bool, threshold: int)
      ensures this.identified == identified && this.threshold == threshold
      ensures buf == [] && !processing && flushed == []
    {
      this.identified, this.threshold := identified, threshold;
      buf, processing, flushed := [], false, [];
    }

    // All audio seen so far: what was handed on, then what is still buffered.
    ghost function Audio(): Bytes reads this {
      Concat(flushed, |flushed|) + buf
    }

    // Between events: not in the middle of a flush, every chunk handed on was
    // long enough, and what is buffered is not.
    ghost predicate Settled() reads this {
      && !processing
      && (identified ==> |buf| < Max(threshold, 1))
      && (!identified ==> flushed == [])
      && forall i :: 0 <= i < |flushed| ==> |flushed[i]| >= Max(threshold, 1)
    }

    method MaybeFlush(force: bool)
      modifies this`buf, this`processing, this`flushed
      ensures processing == old(processing) && Audio() == old(Audio())
      ensures if !old(processing) && identified && old(buf) != [] && (force || |old(buf)| >= threshold)
              then buf == [] && flushed == old(flushed) + [old(buf)]
              else buf == old(buf) && flushed == old(flushed)
    {
      if processing || !identified {
        return;
      }
      if !force && |buf| < threshold {
        return;
      }
      if buf == [] {
        return;
      }
      processing := true;
      var chunk := buf;
      ConcatAppend(flushed, chunk);
      buf := [];
      flushed := flushed + [chunk];
      processing := false;
    }

    method OnMedia(payload: Option<Bytes>)
      requires Settled()
      modifies this`buf, this`processing, this`flushed
      ensures Settled() && Audio() == old(Audio()) + Payload(Media(payload))
    {
      if payload.Some? {
        buf := buf + payload.value;
      }
      assert Audio() == old(Audio()) + Payload(Media(payload));
      MaybeFlush(false);
    }

    // Reads frames until stop or disconnect, then flushes what is left. The
    // chunks partition the received audio: concatenated they are every decoded
    // payload in order, all but the last are at least as long as the threshold,
    // and none is empty. A call without a known caller flushes nothing.
    method Run(frames: seq<Frame>)
      requires buf == [] && !processing && flushed == []
      requires EndOf(frames, 0) < |frames|
      modifies this`buf, this`processing, this`flushed
      ensures identified ==> Concat(flushed, |flushed|) == Received(frames, EndOf(frames, 0))
      ensures forall i :: 0 <= i < |flushed| - 1 ==> |flushed[i]| >= threshold
      ensures forall i :: 0 <= i < |flushed| ==> flushed[i] != []
      ensures !identified ==> flushed == []
    {
      var n := 0;
      while frames[n] != Disconnect && frames[n] != Stop
        invariant n <= EndOf(frames, 0)
        invariant Settled() && Audio() == Received(frames, n)
        decreases EndOf(frames, 0) - n
      {
        if frames[n].Media? {
          OnMedia(frames[n].payload);
        }
        n := n + 1;
      }
      if frames[n] == Stop {
        MaybeFlush(true);
      }
      if identified && buf != [] && !processing {
        ConcatAppend(flushed, buf);
        flushed := flushed + [buf];
      }
    }
  }
}
