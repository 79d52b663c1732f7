/** Messages through the whole stack: encoded, sealed, framed, cut anywhere, read and decoded. */
module MessagePassing {
  import opened Prelude
  import opened Crypto
  import opened Transports
  import opened Framing
  import opened Channels
  import Codec = MessageCodec
  import Progress = ChannelProgress

  /** The plaintexts the desktop can decode. */
  function DecoderOf(j: Codec.Json<string>): Decoder {
    frame => Codec.Decoded(j, frame).Ok?
  }

  /** The messages among the plaintexts read. */
  function MessagesRead(j: Codec.Json<string>, frames: seq<Bytes>): (r: seq<Codec.Message<string>>)
    requires AllDecode(DecoderOf(j), frames)
    ensures |r| == |frames| && forall i :: 0 <= i < |r| ==> Codec.Decoded(j, frames[i]) == Ok(r[i])
  {
    seq(|frames|, i requires 0 <= i < |frames| => Codec.Decoded(j, frames[i]).value)
  }

  /**
   * After any run that leaves the session open and the stream unbroken, in which only decodable messages were
   * taken: a message within the protocol's limits, which an idle thread sends, can be carried through, and the
   * other end reads it as the last of the messages.
   */
  lemma EveryMessageArrives(p: Primitives, key: Bytes, j: Codec.Json<string>, senders: nat, before: seq<Action>, t: Tid,
                            m: Codec.Message<string>)
    returns (run: seq<Action>)
    requires p.Lawful() && Possible(p, Open(key, senders), before)
    requires var c := After(p, Open(key, senders), before);
             && !c.closed && !c.shut && c.broken.None? && t < |c.threads| && c.threads[t].Idle? && c.sentCount <= 0x1_0000_0000_0000
             && AllDecode(DecoderOf(j), c.accepted)
    requires Codec.Typed(m) && Codec.ReadsBack(j, m) && Codec.Acceptable(m)
    requires Codec.Encoded(j, m).Ok? && Codec.Short(m, Codec.Encoded(j, m).value)
    ensures Possible(p, Open(key, senders), run)
    ensures var d := After(p, Open(key, senders), run);
            var frames := ReceivedAll(p, DecoderOf(j), NewReader(key), d.wire);
            && AllDecode(DecoderOf(j), frames)
            && MessagesRead(j, frames) != [] && MessagesRead(j, frames)[|frames| - 1] == m && |frames| in d.acked
  {
    var decodes, frame := DecoderOf(j), Codec.Encoded(j, m).value;
    Codec.DecodeInvertsEncode(j, m);
    hide Possible, After, ReceivedAll, Understood, FrameAll, Primitives.Lawful, Codec.Decoded, Codec.Acceptable, Codec.ReadsBack;
    assert |frame| <= 65519;
    hide Codec.Encoded;
    run := Progress.EverySendCanComplete(p, key, decodes, senders, before, t, frame);
    var d := After(p, Open(key, senders), run);
    assert decodes(frame);
    assert AllDecode(decodes, Messages(d));
  }
}
