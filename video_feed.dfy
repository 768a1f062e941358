/** The `/video_feed` side of the server: the capture thread's frame holder
    and the multipart/x-mixed-replace body that `generate_frames` yields.
    Capture, resizing and JPEG encoding are foreign calls; a frame is an
    opaque byte string, and one capture attempt is `Some(frame)` when both
    the read and the encoding succeeded and `None` otherwise. */
module VideoFeed {
  import opened Common

  /** The frame held after a sequence of capture attempts, starting from
      `init`: the last successful one wins, failures leave the holder alone. */
  function Latest(init: Option<Bytes>, attempts: seq<Option<Bytes>>): Option<Bytes> {
    if attempts == [] then init
    else if attempts[|attempts| - 1].Some? then attempts[|attempts| - 1]
    else Latest(init, attempts[..|attempts| - 1])
  }

  /** Two runs of the capture loop hold what one run over both would. */
  lemma {:induction false} LatestAppend(init: Option<Bytes>, a: seq<Option<Bytes>>, b: seq<Option<Bytes>>)
    ensures Latest(init, a + b) == Latest(Latest(init, a), b)
  {
    if b == [] {
      assert a + b == a;
    } else {
      assert (a + b)[..|a + b| - 1] == a + b[..|b| - 1];
      LatestAppend(init, a, b[..|b| - 1]);
    }
  }

  /** Failed attempts after a success never displace it: the holder keeps
      the last frame that was produced. */
  lemma {:induction false} LatestWins(init: Option<Bytes>, before: seq<Option<Bytes>>, f: Bytes, after: seq<Option<Bytes>>)
    requires forall k | 0 <= k < |after| :: after[k] == None
    ensures Latest(init, before + [Some(f)] + after) == Some(f)
  {
    if after == [] {
      assert before + [Some(f)] + after == before + [Some(f)];
    } else {
      var s := before + [Some(f)] + after;
      assert s[..|s| - 1] == before + [Some(f)] + after[..|after| - 1];
      LatestWins(init, before, f, after[..|after| - 1]);
    }
  }

  /** main_linux.py's `jpeg_frame` / `frame_event` pair as a value. */
  datatype Slot = Slot(jpeg: Option<Bytes>, ready: bool)

  /** The state both threads start from: no frame, event clear. */
  const EmptySlot := Slot(None, false)

  /** The capture thread stores a new encoding and sets the event. */
  function Publish(s: Slot, f: Bytes): (r: Slot)
    ensures r.jpeg == Some(f) && r.ready
  {
    Slot(Some(f), true)
  }

  /** `get_frame`: with the event set, clear it and hand out the stored
      frame; otherwise the one-second wait times out and yields nothing. */
  function Take(s: Slot): (Slot, Option<Bytes>) {
    if s.ready then (s.(ready := false), s.jpeg) else (s, None)
  }

  /** A set event always comes with a frame. */
  ghost predicate SlotValid(s: Slot) {
    s.ready ==> s.jpeg.Some?
  }

  /** The capture loop over several attempts. */
  function PublishAll(s: Slot, attempts: seq<Option<Bytes>>): Slot {
    if attempts == [] then s
    else
      var prev := PublishAll(s, attempts[..|attempts| - 1]);
      match attempts[|attempts| - 1]
      case Some(f) => Publish(prev, f)
      case None => prev
  }

  /** The capture loop keeps `jpeg_frame` equal to the latest encoding, sets
      the event exactly when some attempt succeeded, and keeps the slot valid. */
  lemma {:induction false} PublishAllLatest(s: Slot, attempts: seq<Option<Bytes>>)
    ensures PublishAll(s, attempts).jpeg == Latest(s.jpeg, attempts)
    ensures PublishAll(s, attempts).ready <==>
      s.ready || exists k | 0 <= k < |attempts| :: attempts[k].Some?
    ensures SlotValid(s) ==> SlotValid(PublishAll(s, attempts))
  {
    if attempts != [] {
      var init := attempts[..|attempts| - 1];
      PublishAllLatest(s, init);
      if attempts[|attempts| - 1].None? {
        assert forall k | 0 <= k < |init| :: init[k] == attempts[k];
      }
    }
  }

  /** The reader sees the frame published last, never an earlier unread one,
      and a second read with no publish in between sees nothing. */
  lemma TakeAfterPublish(s: Slot, f: Bytes)
    ensures Take(Publish(s, f)).1 == Some(f)
    ensures Take(Take(Publish(s, f)).0).1 == None
  {
  }

  /** A read after a run of attempts returns the last frame that run
      produced, whatever failures followed it. */
  lemma TakeAfterCapture(attempts: seq<Option<Bytes>>, before: seq<Option<Bytes>>, f: Bytes, after: seq<Option<Bytes>>)
    requires attempts == before + [Some(f)] + after
    requires forall k | 0 <= k < |after| :: after[k] == None
    ensures Take(PublishAll(EmptySlot, attempts)).1 == Some(f)
  {
    PublishAllLatest(EmptySlot, attempts);
    LatestWins(None, before, f, after);
    assert attempts[|before|].Some?;
  }

  /** A read yields nothing or a frame that was really captured. */
  lemma TakeValid(s: Slot)
    requires SlotValid(s)
    ensures SlotValid(Take(s).0) && !Take(s).0.ready
    ensures Take(s).1.Some? <==> s.ready
  {
  }

  /** main_linux.py's VideoStreamer, run one step at a time. */
  class FrameSlot {
    var jpegFrame: Option<Bytes>
    var frameReady: bool

    function State(): Slot
      reads this
    {
      Slot(jpegFrame, frameReady)
    }

    constructor ()
      ensures State() == EmptySlot
    {
      jpegFrame := None;
      frameReady := false;
    }

    /** `update`: every successful attempt overwrites the frame and sets the event. */
    method Update(attempts: seq<Option<Bytes>>)
      modifies this
      ensures State() == PublishAll(old(State()), attempts)
    {
      var i := 0;
      while i < |attempts|
        invariant 0 <= i <= |attempts|
        invariant State() == PublishAll(old(State()), attempts[..i])
      {
        assert attempts[..i + 1][..i] == attempts[..i];
        match attempts[i] {
          case Some(f) =>
            jpegFrame := Some(f);
            frameReady := true;
          case None =>
        }
        i := i + 1;
      }
      assert attempts[..i] == attempts;
    }

    /** `get_frame`. */
    method GetFrame() returns (frame: Option<Bytes>)
      modifies this
      ensures (State(), frame) == Take(old(State()))
    {
      if frameReady {
        frameReady := false;
        frame := jpegFrame;
      } else {
        frame := None;
      }
    }
  }

  /** main.py's VideoStreamer: `self.frame` holds the latest raw capture; the
      first read happens in the constructor and may already fail. */
  class CameraFrame {
    var frame: Option<Bytes>

    constructor (first: Option<Bytes>)
      ensures frame == first
    {
      frame := first;
    }

    /** `update`: each successful read replaces the frame. */
    method Update(captures: seq<Option<Bytes>>)
      modifies this
      ensures frame == Latest(old(frame), captures)
    {
      var i := 0;
      while i < |captures|
        invariant 0 <= i <= |captures|
        invariant frame == Latest(old(frame), captures[..i])
      {
        assert captures[..i + 1][..i] == captures[..i];
        if captures[i].Some? {
          frame := captures[i];
        }
        i := i + 1;
      }
      assert captures[..i] == captures;
    }

    /** `get_frame`: encode whatever frame is held, without consuming it;
        with no frame held, imencode raises and nothing is returned. */
    method GetFrame(encode: Bytes -> Bytes) returns (jpeg: Option<Bytes>)
      ensures jpeg == (if frame.Some? then Some(encode(frame.value)) else None)
    {
      if frame.Some? {
        jpeg := Some(encode(frame.value));
      } else {
        jpeg := None;
      }
    }
  }

  /** The bytes of an ASCII string. */
  function Ascii(s: string): (b: Bytes)
    ensures |b| == |s|
  {
    seq(|s|, i requires 0 <= i < |s| => (s[i] as int) % 0x100)
  }

  /** The boundary line and part header that precede every JPEG. */
  const PartHeader: Bytes := Ascii("--frame\r\nContent-Type: image/jpeg\r\n\r\n")

  const Crlf: Bytes := Ascii("\r\n")

  /** One body part of the multipart stream. */
  function MultipartPart(jpeg: Bytes): (part: Bytes)
    ensures |part| == |PartHeader| + |jpeg| + |Crlf|
  {
    PartHeader + jpeg + Crlf
  }

  /** Reads the JPEG back out of one body part. */
  function FrameOfPart(part: Bytes): Option<Bytes> {
    if |part| >= |PartHeader| + |Crlf|
      && part[..|PartHeader|] == PartHeader
      && part[|part| - |Crlf|..] == Crlf
    then Some(part[|PartHeader|..|part| - |Crlf|])
    else None
  }

  lemma PartRoundTrip(jpeg: Bytes)
    ensures FrameOfPart(MultipartPart(jpeg)) == Some(jpeg)
  {
    var part := MultipartPart(jpeg);
    assert part[..|PartHeader|] == PartHeader;
    assert part[|part| - |Crlf|..] == Crlf;
    assert part[|PartHeader|..|part| - |Crlf|] == jpeg;
  }

  /** Every part that decodes is exactly the framing of what it decodes to. */
  lemma PartDecodeEncode(part: Bytes)
    requires FrameOfPart(part).Some?
    ensures MultipartPart(FrameOfPart(part).value) == part
  {
    var jpeg := FrameOfPart(part).value;
    assert part == part[..|PartHeader|] + jpeg + part[|part| - |Crlf|..];
  }

  /** main_linux.py: the parts yielded for a run of `get_frame` results; a
      timed-out read or an empty frame is skipped (the loop sleeps instead). */
  function LinuxParts(results: seq<Option<Bytes>>): seq<Bytes> {
    if results == [] then []
    else
      var last := results[|results| - 1];
      LinuxParts(results[..|results| - 1]) +
        (if last.Some? && |last.value| > 0 then [MultipartPart(last.value)] else [])
  }

  /** The non-empty frames among the results, in order. */
  function Shown(results: seq<Option<Bytes>>): seq<Bytes> {
    if results == [] then []
    else
      var last := results[|results| - 1];
      Shown(results[..|results| - 1]) +
        (if last.Some? && |last.value| > 0 then [last.value] else [])
  }

  /** The Linux stream carries exactly the non-empty frames read, in order,
      one part each, and never an empty image. */
  lemma {:induction false} LinuxStreamCarriesFrames(results: seq<Option<Bytes>>)
    ensures |LinuxParts(results)| == |Shown(results)| <= |results|
    ensures forall k | 0 <= k < |Shown(results)| ::
      LinuxParts(results)[k] == MultipartPart(Shown(results)[k]) && |Shown(results)[k]| > 0
  {
    if results != [] {
      LinuxStreamCarriesFrames(results[..|results| - 1]);
    }
  }

  /** main.py: the parts yielded for a run of `get_frame` results; the first
      failed encoding raises out of the generator and ends the stream. */
  function WindowsParts(results: seq<Option<Bytes>>): seq<Bytes> {
    if results == [] || results[0].None? then []
    else [MultipartPart(results[0].value)] + WindowsParts(results[1..])
  }

  /** The Windows stream yields one part per read until the first failure,
      re-sending an unchanged frame every time (empty frames included). */
  lemma {:induction false} WindowsStreamStopsAtFailure(results: seq<Option<Bytes>>)
    ensures |WindowsParts(results)| <= |results|
    ensures forall k | 0 <= k < |WindowsParts(results)| ::
      results[k].Some? && WindowsParts(results)[k] == MultipartPart(results[k].value)
    ensures |WindowsParts(results)| < |results| ==> results[|WindowsParts(results)|].None?
  {
    if results != [] && results[0].Some? {
      WindowsStreamStopsAtFailure(results[1..]);
    }
  }

  /** main_linux.py's `generate_frames`, over the results its reads get. */
  method GenerateFramesLinux(results: seq<Option<Bytes>>) returns (parts: seq<Bytes>)
    ensures parts == LinuxParts(results)
  {
    parts := [];
    var i := 0;
    while i < |results|
      invariant 0 <= i <= |results|
      invariant parts == LinuxParts(results[..i])
    {
      assert results[..i + 1][..i] == results[..i];
      var frame := results[i];
      if frame.Some? && |frame.value| > 0 {
        parts := parts + [MultipartPart(frame.value)];
      }
      i := i + 1;
    }
    assert results[..i] == results;
  }

  /** main.py's `generate_frames`, over the results its reads get. */
  method GenerateFramesWindows(results: seq<Option<Bytes>>) returns (parts: seq<Bytes>)
    ensures parts == WindowsParts(results)
  {
    parts := [];
    var i := 0;
    while i < |results|
      invariant 0 <= i <= |results|
      invariant WindowsParts(results) == parts + WindowsParts(results[i..])
    {
      if results[i].None? {
        return;
      }
      assert results[i..][1..] == results[i + 1..];
      parts := parts + [MultipartPart(results[i].value)];
      i := i + 1;
    }
  }
}
