/** The UDP listeners of the input bridge (`parse_mouse`, `parse_scroll`,
    `parse_button`). Each one owns a small buffer that it reuses. On every
    iteration it receives a datagram into that buffer, decodes the buffer and
    makes exactly one call on the shared device. The device is modelled as the
    log of the calls made on it. The network is modelled as the sequence of
    datagrams a listener receives. */
module Listener {
  import opened Codec

  /** One call on the virtual device, with the arguments it is given. */
  datatype Command =
    | Move(dx: i32, dy: i32)   // move_mouse(dx, dy)
    | Scroll(delta: i32)       // scroll_vertical(delta)
    | Press(button: u16)       // press(button)
    | Release(button: u16)     // release(button)

  /** The three listener loops. */
  datatype Channel = MouseChannel | ScrollChannel | ButtonChannel

  /** The size of each loop's buffer: two bytes for a move, one otherwise. */
  function BufferSize(ch: Channel): (n: nat)
    ensures n > 0
  {
    if ch == MouseChannel then 2 else 1
  }

  /** `parse_mouse` allocates `[0; 2]`, `parse_scroll` and `parse_button`
      allocate `[0; 1]`. */
  lemma BufferSizes(ch: Channel)
    ensures BufferSize(ch) == 2 <==> ch == MouseChannel
    ensures BufferSize(ch) == 1 <==> ch != MouseChannel
  {
  }

  // ---------------------------------------------------------------------------
  // Decoding rules, over the bytes of the buffer
  // ---------------------------------------------------------------------------

  /** The move rule: both bytes are deltas and the vertical one is negated.
      The horizontal argument of `move_mouse` lies in [-127, 128], the
      inverted vertical one in [-128, 127], and each is determined by its
      byte (re-encoding gives the byte back). */
  function DecodeMouse(x: u8, y: u8): (c: Command)
    ensures c.Move?
    ensures -127 <= c.dx <= 128 && -128 <= c.dy <= 127
    ensures Encode(c.dx) == x && Encode(-c.dy) == y
  {
    Move(ToNum(x), -ToNum(y))
  }

  /** The scroll rule: the byte is a vertical scroll delta in [-127, 128]
      that re-encodes to the byte. */
  function DecodeScroll(b: u8): (c: Command)
    ensures c.Scroll?
    ensures -127 <= c.delta <= 128 && Encode(c.delta) == b
  {
    Scroll(ToNum(b))
  }

  /** The button byte after the press branch has normalised it in place:
      a press code (above 128) loses its offset of 128. */
  function NormalizeButton(b: u8): (r: u8)
    ensures r <= 128
    ensures b > 128 ==> 1 <= r <= 127 && r as int + 128 == b as int
    ensures b <= 128 ==> r == b
  {
    if b > 128 then b - 128 else b
  }

  /** The button rule: a byte above 128 presses the button whose code is the
      byte less 128; any other byte, 128 included, releases the button with
      that code. Both directions: the byte is a press exactly when it is
      above 128, and the button is that of the normalised code. */
  function DecodeButton(keys: KeyCodes, b: u8): (c: Command)
    ensures c.Press? <==> b > 128
    ensures c.Release? <==> b <= 128
    ensures c.Press? ==> 1 <= NormalizeButton(b) <= 127
    ensures c.button == ToButton(keys, NormalizeButton(b))
  {
    if b > 128 then Press(ToButton(keys, NormalizeButton(b))) else Release(ToButton(keys, b))
  }

  /** A press code and its release code name the same button: for every code
      c in [1, 127], byte c + 128 presses the button that byte c releases. */
  lemma PressReleaseCorrespond(keys: KeyCodes, c: u8)
    requires 1 <= c <= 127
    ensures DecodeButton(keys, c + 128) == Press(DecodeButton(keys, c).button)
    ensures DecodeButton(keys, c) == Release(DecodeButton(keys, c + 128).button)
  {
  }

  /** Byte 0xDA = 90 + 128 presses the left button, byte 90 releases it. */
  lemma LeftButtonExamples(keys: KeyCodes)
    ensures DecodeButton(keys, 0xDA) == Press(keys.left)
    ensures DecodeButton(keys, 90) == Release(keys.left)
    ensures DecodeButton(keys, 128) == Release(128)
  {
  }

  /** Scrolling by byte 10 scrolls by 10; byte 130 scrolls by -126. */
  lemma ScrollExamples()
    ensures DecodeScroll(10) == Scroll(10)
    ensures DecodeScroll(130) == Scroll(-126)
  {
  }

  /** The command one iteration of channel `ch` issues for buffer `msg`. */
  function Decode(keys: KeyCodes, ch: Channel, msg: seq<u8>): (c: Command)
    requires |msg| == BufferSize(ch)
    ensures c.Move? <==> ch == MouseChannel
    ensures c.Scroll? <==> ch == ScrollChannel
    ensures (c.Press? || c.Release?) <==> ch == ButtonChannel
  {
    match ch
    case MouseChannel => DecodeMouse(msg[0], msg[1])
    case ScrollChannel => DecodeScroll(msg[0])
    case ButtonChannel => DecodeButton(keys, msg[0])
  }

  /** The buffer after one iteration has decoded it: only the button loop
      writes to it, normalising a press code. */
  function AfterDecode(ch: Channel, msg: seq<u8>): (r: seq<u8>)
    requires |msg| == BufferSize(ch)
    ensures |r| == |msg|
    ensures ch != ButtonChannel ==> r == msg
  {
    if ch == ButtonChannel then [NormalizeButton(msg[0])] else msg
  }

  // ---------------------------------------------------------------------------
  // Receiving into the reused buffer
  // ---------------------------------------------------------------------------

  /** The buffer after a datagram has been received into it: the datagram's
      bytes overwrite the front of the buffer, bytes that do not fit are
      dropped, and cells the datagram does not reach keep their old values. */
  function Received(buf: seq<u8>, dgram: seq<u8>): (r: seq<u8>)
    ensures |r| == |buf|
    ensures forall i :: 0 <= i < |r| ==> r[i] == if i < |dgram| then dgram[i] else buf[i]
  {
    if |dgram| >= |buf| then dgram[..|buf|] else dgram + buf[|dgram|..]
  }

  /** A datagram at least as long as the buffer replaces all of it. */
  lemma ReceivedFull(buf: seq<u8>, dgram: seq<u8>)
    requires |dgram| >= |buf|
    ensures Received(buf, dgram) == dgram[..|buf|]
  {
  }

  // ---------------------------------------------------------------------------
  // A listener's run over a sequence of datagrams
  // ---------------------------------------------------------------------------

  /** The commands a listener issues and the buffer it is left with. */
  datatype Trace = Trace(cmds: seq<Command>, msg: seq<u8>)

  /** The run of channel `ch` from buffer `msg` over datagrams `ds`: one
      command per datagram, decoded from the buffer as that datagram left it. */
  function Run(keys: KeyCodes, ch: Channel, msg: seq<u8>, ds: seq<seq<u8>>): (t: Trace)
    requires |msg| == BufferSize(ch)
    ensures |t.cmds| == |ds|
    ensures |t.msg| == BufferSize(ch)
    decreases |ds|
  {
    if ds == [] then Trace([], msg)
    else
      var m := Received(msg, ds[0]);
      var rest := Run(keys, ch, AfterDecode(ch, m), ds[1..]);
      Trace([Decode(keys, ch, m)] + rest.cmds, rest.msg)
  }

  /** Running over one more datagram extends the run by exactly one command,
      decoded from the buffer the earlier datagrams left. */
  lemma {:induction false} RunSnoc(keys: KeyCodes, ch: Channel, msg: seq<u8>, ds: seq<seq<u8>>, d: seq<u8>)
    requires |msg| == BufferSize(ch)
    ensures Run(keys, ch, msg, ds + [d]).cmds
         == Run(keys, ch, msg, ds).cmds + [Decode(keys, ch, Received(Run(keys, ch, msg, ds).msg, d))]
    ensures Run(keys, ch, msg, ds + [d]).msg
         == AfterDecode(ch, Received(Run(keys, ch, msg, ds).msg, d))
    decreases |ds|
  {
    if ds != [] {
      var m := Received(msg, ds[0]);
      var next := AfterDecode(ch, m);
      assert (ds + [d])[0] == ds[0];
      assert (ds + [d])[1..] == ds[1..] + [d];
      RunSnoc(keys, ch, next, ds[1..], d);
      var whole := Run(keys, ch, msg, ds + [d]);
      var rest := Run(keys, ch, next, ds[1..] + [d]);
      assert whole == Trace([Decode(keys, ch, m)] + rest.cmds, rest.msg);
      assert Run(keys, ch, msg, ds) == Trace([Decode(keys, ch, m)] + Run(keys, ch, next, ds[1..]).cmds, Run(keys, ch, next, ds[1..]).msg);
    } else {
      assert ds + [d] == [d];
    }
  }

  /** The loop's step: the run over the first i + 1 datagrams is the run over
      the first i, followed by one iteration on datagram i. */
  lemma RunStep(keys: KeyCodes, ch: Channel, msg: seq<u8>, ds: seq<seq<u8>>, i: nat)
    requires |msg| == BufferSize(ch)
    requires i < |ds|
    ensures Run(keys, ch, msg, ds[..i + 1]).cmds
         == Run(keys, ch, msg, ds[..i]).cmds + [Decode(keys, ch, Received(Run(keys, ch, msg, ds[..i]).msg, ds[i]))]
    ensures Run(keys, ch, msg, ds[..i + 1]).msg
         == AfterDecode(ch, Received(Run(keys, ch, msg, ds[..i]).msg, ds[i]))
  {
    assert ds[..i + 1] == ds[..i] + [ds[i]];
    RunSnoc(keys, ch, msg, ds[..i], ds[i]);
  }

  /** When every datagram fills the buffer, the k-th command depends on the
      k-th datagram alone: nothing left over in the buffer from earlier
      datagrams, nor its initial contents, shows through. */
  lemma {:induction false} RunFullDatagrams(keys: KeyCodes, ch: Channel, msg: seq<u8>, ds: seq<seq<u8>>, k: nat)
    requires |msg| == BufferSize(ch)
    requires forall j :: 0 <= j < |ds| ==> |ds[j]| >= BufferSize(ch)
    requires k < |ds|
    ensures Run(keys, ch, msg, ds).cmds[k] == Decode(keys, ch, ds[k][..BufferSize(ch)])
    decreases k
  {
    var m := Received(msg, ds[0]);
    ReceivedFull(msg, ds[0]);
    if k > 0 {
      RunFullDatagrams(keys, ch, AfterDecode(ch, m), ds[1..], k - 1);
    }
  }

  /** The buffer is reused: after a press, an empty datagram leaves the
      normalised code in the buffer, so the next iteration releases the
      button that was just pressed. */
  lemma PressThenEmptyReleases(keys: KeyCodes, b: u8)
    requires b > 128
    ensures Run(keys, ButtonChannel, [b], [[], []]).cmds
         == [Press(ToButton(keys, b - 128)), Release(ToButton(keys, b - 128))]
    ensures Run(keys, ButtonChannel, [0], [[b], []]).cmds
         == [Press(ToButton(keys, b - 128)), Release(ToButton(keys, b - 128))]
  {
  }

  /** A one-byte datagram on the move channel only updates the horizontal
      byte: the vertical delta is the one left in the buffer. */
  lemma ShortMoveKeepsVertical(keys: KeyCodes, x0: u8, y0: u8, x: u8)
    ensures Run(keys, MouseChannel, [x0, y0], [[x]]).cmds == [DecodeMouse(x, y0)]
    ensures Run(keys, MouseChannel, [x0, y0], [[x]]).msg == [x, y0]
  {
  }

  // ---------------------------------------------------------------------------
  // The device and the listener loops
  // ---------------------------------------------------------------------------

  /** The virtual device, seen through the calls made on it. */
  class Device {
    var log: seq<Command>

    constructor ()
      ensures log == []
    {
      log := [];
    }

    method MoveMouse(dx: i32, dy: i32)
      modifies this
      ensures log == old(log) + [Move(dx, dy)]
    {
      log := log + [Move(dx, dy)];
    }

    method ScrollVertical(delta: i32)
      modifies this
      ensures log == old(log) + [Scroll(delta)]
    {
      log := log + [Scroll(delta)];
    }

    method PressButton(button: u16)
      modifies this
      ensures log == old(log) + [Press(button)]
    {
      log := log + [Press(button)];
    }

    method ReleaseButton(button: u16)
      modifies this
      ensures log == old(log) + [Release(button)]
    {
      log := log + [Release(button)];
    }
  }

  /** `recv_from` into the reused buffer. */
  method Receive(msg: array<u8>, dgram: seq<u8>)
    modifies msg
    ensures msg[..] == Received(old(msg[..]), dgram)
  {
    forall i | 0 <= i < msg.Length && i < |dgram| {
      msg[i] := dgram[i];
    }
  }

  /** The decode step of `parse_mouse`. */
  method MouseIteration(msg: array<u8>, dev: Device)
    requires msg.Length == 2
    modifies dev
    ensures dev.log == old(dev.log) + [DecodeMouse(msg[0], msg[1])]
  {
    var x := ToNum(msg[0]);
    var y := ToNum(msg[1]);
    dev.MoveMouse(x, -y);
  }

  /** The decode step of `parse_scroll`. */
  method ScrollIteration(msg: array<u8>, dev: Device)
    requires msg.Length == 1
    modifies dev
    ensures dev.log == old(dev.log) + [DecodeScroll(msg[0])]
  {
    var y := ToNum(msg[0]);
    dev.ScrollVertical(y);
  }

  /** The decode step of `parse_button`: a press code is normalised in the
      buffer itself before it is mapped to a button. */
  method ButtonIteration(keys: KeyCodes, msg: array<u8>, dev: Device)
    requires msg.Length == 1
    modifies msg, dev
    ensures msg[..] == AfterDecode(ButtonChannel, old(msg[..]))
    ensures dev.log == old(dev.log) + [Decode(keys, ButtonChannel, old(msg[..]))]
  {
    if msg[0] > 128 {
      msg[0] := msg[0] - 128;
      dev.PressButton(ToButton(keys, msg[0]));
    } else {
      dev.ReleaseButton(ToButton(keys, msg[0]));
    }
  }

  /** One iteration of a listener loop: receive, then decode and issue
      exactly one device call. */
  method Iteration(keys: KeyCodes, ch: Channel, msg: array<u8>, dgram: seq<u8>, dev: Device)
    requires msg.Length == BufferSize(ch)
    modifies msg, dev
    ensures msg[..] == AfterDecode(ch, Received(old(msg[..]), dgram))
    ensures dev.log == old(dev.log) + [Decode(keys, ch, Received(old(msg[..]), dgram))]
  {
    Receive(msg, dgram);
    match ch
    case MouseChannel => MouseIteration(msg, dev);
    case ScrollChannel => ScrollIteration(msg, dev);
    case ButtonChannel => ButtonIteration(keys, msg, dev);
  }

  /** The loop of `parse_mouse`, `parse_scroll` or `parse_button` over the
      datagrams `ds`, from a buffer that starts zeroed. The device log grows
      by the run's commands, one per datagram, in arrival order. */
  method Listen(keys: KeyCodes, ch: Channel, ds: seq<seq<u8>>, dev: Device)
    modifies dev
    ensures dev.log == old(dev.log) + Run(keys, ch, Zeros(BufferSize(ch)), ds).cmds
  {
    var msg := new u8[BufferSize(ch)](_ => 0);
    ghost var start := msg[..];
    assert start == Zeros(BufferSize(ch));
    var i := 0;
    ghost var t := Trace([], start);
    while i < |ds|
      invariant 0 <= i <= |ds|
      invariant msg.Length == BufferSize(ch)
      invariant t == Run(keys, ch, start, ds[..i])
      invariant msg[..] == t.msg
      invariant dev.log == old(dev.log) + t.cmds
    {
      RunStep(keys, ch, start, ds, i);
      Iteration(keys, ch, msg, ds[i], dev);
      t := Run(keys, ch, start, ds[..i + 1]);
      i := i + 1;
    }
    assert ds[..|ds|] == ds;
  }

  /** A buffer of n zero bytes, as `[0; n]` creates it. */
  function Zeros(n: nat): (r: seq<u8>)
    ensures |r| == n && forall i :: 0 <= i < n ==> r[i] == 0
  {
    seq(n, _ => 0)
  }
}
