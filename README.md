# SocketControllerRust input bridge: the command codec and the listener loops

This project models the byte-level command codec of the remote input bridge
and the receive loops that apply it. The bridge listens on three UDP ports.
Each datagram on the move, scroll or button port becomes one call on a
virtual input device.

- `codec.dfy` (module `Codec`) holds the two pure codec functions. `to_num`
  reads an unsigned byte as a signed relative delta in [-127, 128]. `to_button`
  maps the reserved wire codes 90, 91 and 92 to the library's left, right and
  middle buttons, and passes every other byte through.
- `listener.dfy` (module `Listener`) holds the decode rule of each channel.
  Move is `move_mouse(to_num(x), -to_num(y))`, so the vertical sign is
  inverted. Scroll is `scroll_vertical(to_num(b))`. A button byte above 128
  presses `to_button(b - 128)`; any other byte, 128 included, releases
  `to_button(b)`.
- The same module models the loops of `parse_mouse`, `parse_scroll` and
  `parse_button`:
  - Each loop owns a buffer that it reuses on every iteration. The buffer is
    an `array<u8>` that starts zeroed.
  - Receiving a datagram overwrites the front of the buffer. Bytes that do not
    fit are dropped. Cells that the datagram does not reach keep their old
    values.
  - On a press, the button loop rewrites the buffer in place with the
    normalised code.
  - The shared device is a `Device` object whose `log` records every call made
    on it. Each iteration appends exactly one entry to that log.
  - A loop over a finite sequence of datagrams is proved against the
    specification function `Run`.

The button codes `BTN_LEFT`, `BTN_RIGHT` and `BTN_MIDDLE` belong to an input
library that is not part of this model. They are a `KeyCodes` parameter, and
nothing is assumed about their values. The two lemmas that need an assumption
about them (`ToButtonRoundTrip` and `ToButtonInjective`) state it as a
requirement (`Distinguishable`).

Two edge cases of the button rule:

- Byte 128 decodes as a release of raw code 128 (src/main.rs:113, 117).
- A press byte always normalises into [1, 127], so no decode path fails.

## Model

| member | source | states |
|---|---|---|
| Codec.ToNum | src/main.rs:13-19 | the delta lies in [-127, 128] and re-encodes (mod 256) to the received byte |
| Codec.ToNumCases | src/main.rs:14-17 | bytes up to 128 keep their value; bytes above 128 become b - 256 |
| Codec.ToNumInjective | src/main.rs:13-19 | distinct bytes decode to distinct deltas |
| Codec.EncodeThenToNum | src/main.rs:13-19 | every delta in [-127, 128] is the decoding of its own encoding, so to_num is a bijection onto that range |
| Codec.ToButton | src/main.rs:21-32 | 90, 91 and 92 give the library's left, right and middle buttons; every other byte passes through with its value unchanged |
| Codec.ToButtonRoundTrip | src/main.rs:25-32 | if the library codes are distinct and outside the byte range, the wire code can be recovered from the button code |
| Codec.ToButtonInjective | src/main.rs:25-32 | under the same assumption, two wire codes that give the same button are equal |
| Codec.ToButtonCollision | src/main.rs:27-30 | without that assumption, a named button can coincide with a passed-through code |
| Listener.BufferSize | src/main.rs:85-108 | every listener buffer has room for at least one byte |
| Listener.BufferSizes | src/main.rs:85-108 | the move buffer is two bytes; the scroll and button buffers are one byte each |
| Listener.DecodeMouse | src/main.rs:90-92 | a move whose horizontal argument lies in [-127, 128] and whose inverted vertical argument lies in [-128, 127]; each re-encodes to its byte |
| Listener.DecodeScroll | src/main.rs:102-103 | a scroll whose delta lies in [-127, 128] and re-encodes to the byte |
| Listener.DecodeButton | src/main.rs:113-118 | a press exactly when the byte is above 128, with a normalised code in [1, 127]; a release otherwise; the button is to_button of the normalised code |
| Listener.Decode | src/main.rs:90-118 | each channel issues its own kind of call: a move for the mouse loop, a scroll for the scroll loop, a press or release for the button loop |
| Listener.NormalizeButton | src/main.rs:113-114 | a press byte loses its offset and lands in [1, 127]; a byte up to 128 is unchanged |
| Listener.PressReleaseCorrespond | src/main.rs:113-118 | for c in [1, 127], byte c + 128 presses the button that byte c releases |
| Listener.LeftButtonExamples | src/main.rs:113-118 | 0xDA presses the left button, 90 releases it, and 128 releases raw code 128 |
| Listener.ScrollExamples | src/main.rs:102-103 | byte 10 scrolls by 10 and byte 130 by -126 |
| Listener.Received | src/main.rs:87 | after a receive, each buffer cell holds the datagram's byte if the datagram reaches it and its old value otherwise |
| Listener.ReceivedFull | src/main.rs:87 | a datagram at least as long as the buffer replaces all of it |
| Listener.AfterDecode | src/main.rs:113-114 | the decode step leaves the buffer's length unchanged and touches only the button buffer |
| Listener.Run | src/main.rs:86-119 | a loop over n datagrams issues exactly n device calls and keeps its buffer size |
| Listener.RunSnoc | src/main.rs:86-119 | one more datagram appends exactly one command, decoded from the buffer the earlier datagrams left |
| Listener.RunStep | src/main.rs:86-119 | the run over the first i + 1 datagrams is the run over the first i followed by one iteration on datagram i |
| Listener.RunFullDatagrams | src/main.rs:84-119 | when every datagram fills the buffer, the k-th command depends on the k-th datagram alone |
| Listener.PressThenEmptyReleases | src/main.rs:108-118 | the buffer persists across iterations: after a press, an empty datagram releases the button just pressed |
| Listener.ShortMoveKeepsVertical | src/main.rs:85-92 | a one-byte datagram on the move channel reuses the vertical byte left in the buffer |
| Listener.Zeros | src/main.rs:85 | the initial buffer holds n zero bytes |
| Listener.Device.MoveMouse | src/main.rs:92 | the device log gains exactly the move call |
| Listener.Device.ScrollVertical | src/main.rs:103 | the device log gains exactly the scroll call |
| Listener.Device.PressButton | src/main.rs:115 | the device log gains exactly the press call |
| Listener.Device.ReleaseButton | src/main.rs:117 | the device log gains exactly the release call |
| Listener.Receive | src/main.rs:87 | the array buffer afterwards equals Received of its old contents and the datagram |
| Listener.MouseIteration | src/main.rs:90-92 | one move call with to_num of the first byte and the negated to_num of the second |
| Listener.ScrollIteration | src/main.rs:102-103 | one scroll call with to_num of the byte |
| Listener.ButtonIteration | src/main.rs:113-118 | one press or release call as the button rule says; after a press the buffer holds b - 128 |
| Listener.Iteration | src/main.rs:86-119 | one loop iteration: the buffer is received into and decoded, and the log gains exactly one command |
| Listener.Listen | src/main.rs:84-119 | the loop from a zeroed buffer appends the commands of Run, one per datagram, in arrival order |

## Left out

- UDP sockets, binding, the bind panic and the fixed ports 5005, 5007 and 5009 (src/main.rs:122-143) are network I/O. The received datagrams are an input sequence instead.
- The receive model follows the Linux behaviour of `recv_from`: a datagram longer than the buffer is truncated. Other platforms may report an error instead.
- The model does not include the threads, the `Arc<Mutex<VirtualDevice>>` or the lock taken on each iteration. They exist only for concurrency. Each listener is modelled on its own, so the interleaving of the three listeners on the shared device is not modelled.
- The `VirtualDevice` implementation and the numeric values of `BTN_LEFT`, `BTN_RIGHT` and `BTN_MIDDLE` come from an input library outside this model. The device is a call log, and the codes are a parameter.
- The `.unwrap()` panics on receive and device errors are failures of foreign code. The model's device calls always succeed.
- The commented-out TCP handler (src/main.rs:33-80) is dead code.
- The loops in the source never end. `Listen` models a finite prefix of such a loop, namely the datagrams received so far.
