/**
 * Every message of the protocol as the two platforms write and read it. The JSON libraries are parameters; where
 * a result needs one to read back what was written, it says so of the message at hand.
 */
module MessageCodec {
  import opened Prelude
  import Chunks = ChunkCodec
  import Link = PairingLink
  import Naming

  type Units = Link.Units

  const MAX_TEXT_CHARS: nat := 4096
  const MAX_NAME_CHARS: nat := 64
  const MAX_FILENAME_CHARS: nat := 255

  /** A message whose texts are of type `T`: characters on the desktop, UTF-16 units on the phone. */
  datatype Message<T> =
    | Hello(name: T, version: nat, platform: T)
    | Ping
    | Pong
    | PairRequest(name: T, platform: T)
    | PairAccept
    | PairReject(reason: T)
    | Text(id: Bytes, ts: nat, text: T)
    | TextAck(id: Bytes)
    | FileOffer(id: Bytes, name: T, size: int, sha: T, mime: T)
    | FileAccept(id: Bytes)
    | FileReject(id: Bytes, reason: T)
    | FileChunk(id: Bytes, offset: nat, data: Bytes)
    | FileDone(id: Bytes, sha: T)
    | FileError(id: Bytes, reason: T)
    | FileCancel(id: Bytes, reason: T)

  /** What the JSON object of a control message holds. */
  datatype Fields<T> =
    | NoFields
    | HelloFields(name: T, version: nat, platform: T)
    | PairFields(name: T, platform: T)
    | ReasonFields(reason: T)
    | TextFields(id: Bytes, ts: nat, text: T)
    | IdFields(id: Bytes)
    | OfferFields(id: Bytes, name: T, size: int, sha: T, mime: T)
    | IdReasonFields(id: Bytes, reason: T)
    | DoneFields(id: Bytes, sha: T)

  datatype Shape = NoShape | HelloShape | PairShape | ReasonShape | TextShape | IdShape | OfferShape | IdReasonShape | DoneShape

  /** A JSON library: how it writes an object, and what it finds in a text where an object of that shape is wanted. */
  datatype Json<!T> = Json(write: Fields<T> -> Bytes, read: (Shape, Bytes) -> Option<Fields<T>>)

  datatype Error = Empty | TooLarge | Malformed | BadJson | UnknownType(kind: byte)

  function ShapeOf<T>(f: Fields<T>): Shape {
    match f
    case NoFields => NoShape
    case HelloFields(_, _, _) => HelloShape
    case PairFields(_, _) => PairShape
    case ReasonFields(_) => ReasonShape
    case TextFields(_, _, _) => TextShape
    case IdFields(_) => IdShape
    case OfferFields(_, _, _, _, _) => OfferShape
    case IdReasonFields(_, _) => IdReasonShape
    case DoneFields(_, _) => DoneShape
  }

  // ---- writing ---------------------------------------------------------------------------

  function TypeByte<T>(m: Message<T>): byte {
    match m
    case Hello(_, _, _) => 0x01
    case Ping => 0x02
    case Pong => 0x03
    case PairRequest(_, _) => 0x10
    case PairAccept => 0x11
    case PairReject(_) => 0x12
    case Text(_, _, _) => 0x20
    case TextAck(_) => 0x21
    case FileOffer(_, _, _, _, _) => 0x30
    case FileAccept(_) => 0x31
    case FileReject(_, _) => 0x32
    case FileChunk(_, _, _) => 0x33
    case FileDone(_, _) => 0x34
    case FileError(_, _) => 0x35
    case FileCancel(_, _) => 0x36
  }

  function FieldsOf<T>(m: Message<T>): Fields<T> {
    match m
    case Hello(name, version, platform) => HelloFields(name, version, platform)
    case PairRequest(name, platform) => PairFields(name, platform)
    case PairReject(reason) => ReasonFields(reason)
    case Text(id, ts, text) => TextFields(id, ts, text)
    case TextAck(id) => IdFields(id)
    case FileOffer(id, name, size, sha, mime) => OfferFields(id, name, size, sha, mime)
    case FileAccept(id) => IdFields(id)
    case FileReject(id, reason) => IdReasonFields(id, reason)
    case FileDone(id, sha) => DoneFields(id, sha)
    case FileError(id, reason) => IdReasonFields(id, reason)
    case FileCancel(id, reason) => IdReasonFields(id, reason)
    case _ => NoFields
  }

  function Body<T>(j: Json<T>, f: Fields<T>): Bytes {
    if f.NoFields? then [] else j.write(f)
  }

  predicate Typed<T>(m: Message<T>) {
    m.FileChunk? ==> Chunks.Typed(Chunks.Chunk(m.id, m.offset, m.data))
  }

  function Encoded<T>(j: Json<T>, m: Message<T>): Result<Bytes, Error> {
    if m.FileChunk? then
      match Chunks.Encoded(Chunks.Chunk(m.id, m.offset, m.data))
      case Ok(frame) => Ok(frame)
      case Err(_) => Err(TooLarge)
    else
      var frame := [TypeByte(m)] + Body(j, FieldsOf(m));
      if |frame| > Chunks.MAX_PLAINTEXT then Err(TooLarge) else Ok(frame)
  }

  /** The message is pushed part by part; its length is checked at the end. */
  method Encode<T>(j: Json<T>, m: Message<T>) returns (r: Result<Bytes, Error>)
    requires Typed(m)
    ensures r == Encoded(j, m)
  {
    var out: Bytes := [TypeByte(m)];
    if m.FileChunk? {
      out := out + m.id;
      out := out + BigEndian(m.offset, 8);
      out := out + m.data;
    } else if !FieldsOf(m).NoFields? {
      out := out + j.write(FieldsOf(m));
    } else {
      assert out == out + [];
    }
    if |out| > Chunks.MAX_PLAINTEXT {
      return Err(TooLarge);
    }
    r := Ok(out);
  }

  // ---- reading -----------------------------------------------------------------------------

  function ShapeFor(kind: byte): Option<Shape> {
    match kind
    case 0x01 => Some(HelloShape)
    case 0x02 => Some(NoShape)
    case 0x03 => Some(NoShape)
    case 0x10 => Some(PairShape)
    case 0x11 => Some(NoShape)
    case 0x12 => Some(ReasonShape)
    case 0x20 => Some(TextShape)
    case 0x21 => Some(IdShape)
    case 0x30 => Some(OfferShape)
    case 0x31 => Some(IdShape)
    case 0x32 => Some(IdReasonShape)
    case 0x34 => Some(DoneShape)
    case 0x35 => Some(IdReasonShape)
    case 0x36 => Some(IdReasonShape)
    case _ => None
  }

  /** The message of type `kind` with these fields, if they are the ones it has. */
  function Built<T>(kind: byte, f: Fields<T>): Option<Message<T>> {
    match f
    case HelloFields(name, version, platform) => if kind == 0x01 then Some(Hello(name, version, platform)) else None
    case NoFields =>
      if kind == 0x02 then Some(Ping) else if kind == 0x03 then Some(Pong) else if kind == 0x11 then Some(PairAccept) else None
    case PairFields(name, platform) => if kind == 0x10 then Some(PairRequest(name, platform)) else None
    case ReasonFields(reason) => if kind == 0x12 then Some(PairReject(reason)) else None
    case TextFields(id, ts, text) => if kind == 0x20 then Some(Text(id, ts, text)) else None
    case IdFields(id) => if kind == 0x21 then Some(TextAck(id)) else if kind == 0x31 then Some(FileAccept(id)) else None
    case OfferFields(id, name, size, sha, mime) => if kind == 0x30 then Some(FileOffer(id, name, size, sha, mime)) else None
    case IdReasonFields(id, reason) =>
      if kind == 0x32 then Some(FileReject(id, reason)) else if kind == 0x35 then Some(FileError(id, reason))
      else if kind == 0x36 then Some(FileCancel(id, reason)) else None
    case DoneFields(id, sha) => if kind == 0x34 then Some(FileDone(id, sha)) else None
  }

  predicate HexChar(c: char) {
    '0' <= c <= '9' || 'a' <= c <= 'f' || 'A' <= c <= 'F'
  }

  predicate HexDigest(s: string) {
    |s| == 64 && forall i :: 0 <= i < |s| ==> HexChar(s[i])
  }

  predicate Admits(m: Message<string>) {
    match m
    case Hello(name, _, _) => |name| <= MAX_NAME_CHARS
    case PairRequest(name, _) => |name| <= MAX_NAME_CHARS
    case Text(_, _, text) => |text| <= MAX_TEXT_CHARS
    case FileOffer(_, name, size, sha, _) => |name| <= MAX_FILENAME_CHARS && size <= Chunks.MAX_FILE_SIZE && HexDigest(sha)
    case FileDone(_, sha) => HexDigest(sha)
    case _ => true
  }

  /** A message without fields is read whatever follows its type. */
  function ControlDecoded(j: Json<string>, kind: byte, body: Bytes): Result<Message<string>, Error> {
    match ShapeFor(kind)
    case None => Err(UnknownType(kind))
    case Some(shape) =>
      match if shape.NoShape? then Some(NoFields) else j.read(shape, body)
      case None => Err(BadJson)
      case Some(f) =>
        match Built(kind, f)
        case None => Err(BadJson)
        case Some(m) => if Admits(m) then Ok(m) else Err(Malformed)
  }

  function Decoded(j: Json<string>, frame: Bytes): Result<Message<string>, Error> {
    match Chunks.Decode(frame)
    case Err(Empty) => Err(Empty)
    case Err(TooLarge) => Err(TooLarge)
    case Err(Malformed) => Err(Malformed)
    case Ok(FileChunk(c)) => Ok(FileChunk(c.id, c.offset, c.data))
    case Ok(Control(kind, body)) => ControlDecoded(j, kind, body)
  }

  // ---- the phone ------------------------------------------------------------------------------

  /** The phone's JSON library, and its notion of a digit, which takes in those of other scripts. */
  datatype PhoneJson = PhoneJson(json: Json<Units>, isDigit: nat -> bool)

  /** An absent body counts as an object without members: texts are empty, and there is no transfer id. */
  function AbsentFields(shape: Shape): Option<Fields<Units>> {
    match shape
    case NoShape => Some(NoFields)
    case HelloShape => Some(HelloFields([], 1, []))
    case PairShape => Some(PairFields([], []))
    case ReasonShape => Some(ReasonFields([]))
    case _ => None
  }

  predicate PhoneHexDigest(c: PhoneJson, s: Units) {
    |s| == 64 && forall i :: 0 <= i < |s| ==> c.isDigit(s[i]) || 0x61 <= s[i] <= 0x66 || 0x41 <= s[i] <= 0x46
  }

  predicate PhoneAdmits(c: PhoneJson, m: Message<Units>) {
    match m
    case Hello(name, _, _) => |name| <= MAX_NAME_CHARS
    case PairRequest(name, _) => |name| <= MAX_NAME_CHARS
    case Text(_, _, text) => |text| <= MAX_TEXT_CHARS
    case FileOffer(_, name, size, sha, _) =>
      |name| <= MAX_FILENAME_CHARS && 0 <= size <= Chunks.MAX_FILE_SIZE && PhoneHexDigest(c, sha)
    case FileDone(_, sha) => PhoneHexDigest(c, sha)
    case _ => true
  }

  function LowerUnits(s: Units): (r: Units)
    ensures |r| == |s|
  {
    seq(|s|, i requires 0 <= i < |s| => if 0x41 <= s[i] <= 0x5a then s[i] + 32 else s[i])
  }

  function Lowered(m: Message<Units>): Message<Units> {
    match m
    case FileOffer(id, name, size, sha, mime) => FileOffer(id, name, size, LowerUnits(sha), mime)
    case FileDone(id, sha) => FileDone(id, LowerUnits(sha))
    case _ => m
  }

  /** Unlike the desktop, the phone parses the body of every control message. Any refusal is the same exception. */
  function PhoneDecoded(c: PhoneJson, frame: Bytes): Option<Message<Units>> {
    match Chunks.Decode(frame)
    case Err(_) => None
    case Ok(FileChunk(k)) => Some(FileChunk(k.id, k.offset, k.data))
    case Ok(Control(kind, body)) =>
      match ShapeFor(kind)
      case None => None
      case Some(shape) =>
        match if body == [] then AbsentFields(shape) else c.json.read(shape, body)
        case None => None
        case Some(f) =>
          match Built(kind, f)
          case None => None
          case Some(m) => if PhoneAdmits(c, m) then Some(Lowered(m)) else None
  }

  // ---- what is read of what was written ------------------------------------------------------------

  /** The library reads back what it wrote for this message. */
  predicate ReadsBack(j: Json<string>, m: Message<string>) {
    var f := FieldsOf(m);
    f.NoFields? || j.read(ShapeOf(f), j.write(f)) == Some(f)
  }

  /** The limits of the protocol. */
  predicate Acceptable(m: Message<string>) {
    && (m.Hello? || m.PairRequest? ==> |m.name| <= 64)
    && (m.Text? ==> |m.text| <= 4096)
    && (m.FileOffer? ==> |m.name| <= 255 && m.size <= 0x100_0000_0000)
    && (m.FileChunk? ==> m.offset <= 0x100_0000_0000)
    && (m.FileOffer? || m.FileDone? ==> HexDigest(m.sha))
  }

  /** Control frames may be 16385 bytes long, type byte included. */
  predicate Short<T>(m: Message<T>, frame: Bytes) {
    m.FileChunk? || |frame| <= 16385
  }

  lemma FrameOf<T>(j: Json<T>, m: Message<T>)
    requires !m.FileChunk? && Encoded(j, m).Ok?
    ensures var frame := Encoded(j, m).value;
            frame != [] && frame[0] == TypeByte(m) && frame[1..] == Body(j, FieldsOf(m))
  {
  }

  lemma FieldsBuild<T>(m: Message<T>)
    requires !m.FileChunk?
    ensures TypeByte(m) != 0x33 && ShapeFor(TypeByte(m)) == Some(ShapeOf(FieldsOf(m)))
    ensures Built(TypeByte(m), FieldsOf(m)) == Some(m)
    ensures ShapeOf(FieldsOf(m)).NoShape? <==> FieldsOf(m).NoFields?
  {
  }

  /**
   * The desktop reads a written message as that message exactly when it keeps the protocol's limits and its
   * control frame is at most 16 KiB behind the type byte.
   */
  lemma DecodeInvertsEncode(j: Json<string>, m: Message<string>)
    requires Typed(m) && ReadsBack(j, m) && Encoded(j, m).Ok?
    ensures var frame := Encoded(j, m).value;
            Decoded(j, frame) == (if !Short(m, frame) then Err(TooLarge) else if Acceptable(m) then Ok(m) else Err(Malformed))
  {
    if m.FileChunk? {
      Chunks.DecodeInvertsEncode(Chunks.Chunk(m.id, m.offset, m.data));
    } else {
      FrameOf(j, m);
      FieldsBuild(m);
      hide TypeByte, ShapeFor, Built, FieldsOf, ShapeOf, Encoded;
    }
  }

  /** Whatever arrives, what the desktop reads keeps the limits and begins with its type. */
  lemma ReadMessagesKeepTheLimits(j: Json<string>, frame: Bytes)
    requires Decoded(j, frame).Ok?
    ensures Acceptable(Decoded(j, frame).value) && frame != [] && frame[0] == TypeByte(Decoded(j, frame).value)
    ensures Short(Decoded(j, frame).value, frame)
  {
    if frame[0] != 0x33 {
      hide HexDigest;
      BuiltHasType<string>(frame[0]);
      hide Built, ShapeFor, TypeByte;
    }
  }

  lemma BuiltHasType<T(!new)>(kind: byte)
    ensures forall f: Fields<T> :: Built(kind, f).Some? ==> TypeByte(Built(kind, f).value) == kind && !Built(kind, f).value.FileChunk?
  {
  }

  /** Two messages written alike are the same message. */
  lemma EncodingIsInjective(j: Json<string>, m: Message<string>, n: Message<string>)
    requires Typed(m) && Typed(n) && ReadsBack(j, m) && ReadsBack(j, n)
    requires Encoded(j, m).Ok? && Encoded(j, m) == Encoded(j, n)
    ensures m == n
  {
    if m.FileChunk? {
      Chunks.FrameParts(Chunks.Chunk(m.id, m.offset, m.data));
    }
    if n.FileChunk? {
      Chunks.FrameParts(Chunks.Chunk(n.id, n.offset, n.data));
    }
    if m.FileChunk? && n.FileChunk? {
      Chunks.EncodingIsInjective(Chunks.Chunk(m.id, m.offset, m.data), Chunks.Chunk(n.id, n.offset, n.data));
    } else {
      if !m.FileChunk? {
        FrameOf(j, m);
        FieldsBuild(m);
      }
      if !n.FileChunk? {
        FrameOf(j, n);
        FieldsBuild(n);
      }
      hide TypeByte, ShapeFor, Built, FieldsOf, ShapeOf, Encoded;
    }
  }

  /** A type byte that is none of the fifteen is refused by both platforms. */
  lemma OtherTypesAreRefused(j: Json<string>, c: PhoneJson, frame: Bytes)
    requires frame != []
    requires frame[0] !in {0x01, 0x02, 0x03, 0x10, 0x11, 0x12, 0x20, 0x21, 0x30, 0x31, 0x32, 0x33, 0x34, 0x35, 0x36}
    ensures Decoded(j, frame).Err? && PhoneDecoded(c, frame).None?
  {
  }

  /** The FILE_DONE the desktop sends, with no digest, is read by neither platform. */
  lemma EmptyDigestIsRefused(j: Json<string>, c: PhoneJson, id: Bytes)
    requires ReadsBack(j, FileDone(id, "")) && PhoneReadsBack(j, c, FileDone(id, ""))
    requires Encoded(j, FileDone(id, "")).Ok?
    ensures Decoded(j, Encoded(j, FileDone(id, "")).value).Err?
    ensures PhoneDecoded(c, Encoded(j, FileDone(id, "")).value).None?
  {
    var m: Message<string> := FileDone(id, "");
    DecodeInvertsEncode(j, m);
    PhoneReadsDesktop(j, c, m);
    hide Decoded, PhoneDecoded, Encoded;
  }

  // ---- between the platforms ----------------------------------------------------------------------

  function OnPhone(m: Message<string>): Message<Units> {
    match m
    case Hello(name, version, platform) => Hello(Link.Utf16(name), version, Link.Utf16(platform))
    case Ping => Ping
    case Pong => Pong
    case PairRequest(name, platform) => PairRequest(Link.Utf16(name), Link.Utf16(platform))
    case PairAccept => PairAccept
    case PairReject(reason) => PairReject(Link.Utf16(reason))
    case Text(id, ts, text) => Text(id, ts, Link.Utf16(text))
    case TextAck(id) => TextAck(id)
    case FileOffer(id, name, size, sha, mime) => FileOffer(id, Link.Utf16(name), size, Link.Utf16(sha), Link.Utf16(mime))
    case FileAccept(id) => FileAccept(id)
    case FileReject(id, reason) => FileReject(id, Link.Utf16(reason))
    case FileChunk(id, offset, data) => FileChunk(id, offset, data)
    case FileDone(id, sha) => FileDone(id, Link.Utf16(sha))
    case FileError(id, reason) => FileError(id, Link.Utf16(reason))
    case FileCancel(id, reason) => FileCancel(id, Link.Utf16(reason))
  }

  /** The phone's library reads what the desktop's wrote for this message, which is never nothing. */
  predicate PhoneReadsBack(j: Json<string>, c: PhoneJson, m: Message<string>) {
    var f, g := FieldsOf(m), FieldsOf(OnPhone(m));
    f.NoFields? || (j.write(f) != [] && c.json.read(ShapeOf(g), j.write(f)) == Some(g))
  }

  /** The same limits, counted in UTF-16 units. */
  predicate PhoneAcceptable(c: PhoneJson, m: Message<Units>) {
    && (m.Hello? || m.PairRequest? ==> |m.name| <= 64)
    && (m.Text? ==> |m.text| <= 4096)
    && (m.FileOffer? ==> |m.name| <= 255 && 0 <= m.size <= 0x100_0000_0000)
    && (m.FileChunk? ==> m.offset <= 0x100_0000_0000)
    && (m.FileOffer? || m.FileDone? ==> PhoneHexDigest(c, m.sha))
  }

  lemma OnPhoneKeepsType(m: Message<string>)
    ensures TypeByte(OnPhone(m)) == TypeByte(m) && ShapeOf(FieldsOf(OnPhone(m))) == ShapeOf(FieldsOf(m))
    ensures m.FileChunk? <==> OnPhone(m).FileChunk?
  {
    hide Link.Utf16;
  }

  /**
   * The phone reads what the desktop wrote, digests in lower case, exactly when it keeps the limits in UTF-16
   * units and its control frame is at most 16 KiB behind the type byte.
   */
  lemma PhoneReadsDesktop(j: Json<string>, c: PhoneJson, m: Message<string>)
    requires Typed(m) && PhoneReadsBack(j, c, m) && Encoded(j, m).Ok?
    ensures var frame := Encoded(j, m).value;
            PhoneDecoded(c, frame) ==
              if Short(m, frame) && PhoneAcceptable(c, OnPhone(m)) then Some(Lowered(OnPhone(m))) else None
  {
    if m.FileChunk? {
      Chunks.DecodeInvertsEncode(Chunks.Chunk(m.id, m.offset, m.data));
    } else {
      FrameOf(j, m);
      FieldsBuild(m);
      OnPhoneKeepsType(m);
      FieldsBuild(OnPhone(m));
      hide TypeByte, ShapeFor, Built, FieldsOf, ShapeOf, Encoded, OnPhone, LowerUnits;
    }
  }

  /** The desktop's library reads what the phone's wrote for this message. */
  predicate ReadsPhone(j: Json<string>, c: PhoneJson, m: Message<string>) {
    var f, g := FieldsOf(m), FieldsOf(OnPhone(m));
    f.NoFields? || j.read(ShapeOf(f), c.json.write(g)) == Some(f)
  }

  /** The desktop reads what the phone wrote by its own limits, in characters. */
  lemma DesktopReadsPhone(j: Json<string>, c: PhoneJson, m: Message<string>)
    requires Typed(m) && ReadsPhone(j, c, m) && Encoded(c.json, OnPhone(m)).Ok?
    ensures var frame := Encoded(c.json, OnPhone(m)).value;
            Decoded(j, frame) == (if !Short(m, frame) then Err(TooLarge) else if Acceptable(m) then Ok(m) else Err(Malformed))
  {
    OnPhoneKeepsType(m);
    if m.FileChunk? {
      Chunks.DecodeInvertsEncode(Chunks.Chunk(m.id, m.offset, m.data));
    } else {
      FrameOf(c.json, OnPhone(m));
      FieldsBuild(m);
      FieldsBuild(OnPhone(m));
      hide TypeByte, ShapeFor, Built, FieldsOf, ShapeOf, Encoded, OnPhone;
    }
  }

  // ---- texts as the user types them -----------------------------------------------------------------

  function Trimmed(s: string): string {
    Naming.TrimStart(Naming.TrimEnd(s))
  }

  /** What `send_text` puts into the message: trimmed, then clamped, which appends an ellipsis. */
  function SentText(typed: string): string {
    Link.DesktopClamped(Trimmed(typed), MAX_TEXT_CHARS)
  }

  /**
   * A typed text is read at the other desktop exactly when it has at most 4096 characters and its JSON at most
   * 16 KiB. A longer text becomes one of 4097 characters, which is refused.
   */
  lemma TypedTextIsReadExactly(j: Json<string>, id: Bytes, ts: nat, typed: string)
    requires SentText(typed) != "" && ReadsBack(j, Text(id, ts, SentText(typed)))
    ensures var m: Message<string> := Text(id, ts, SentText(typed));
            var json := j.write(FieldsOf(m));
            && ((Encoded(j, m).Ok? && Decoded(j, Encoded(j, m).value) == Ok(m)) <==> |Trimmed(typed)| <= 4096 && |json| <= 16384)
            && (|Trimmed(typed)| > 4096 && |json| <= 16384 ==>
                  |m.text| == 4097 && Encoded(j, m).Ok? && Decoded(j, Encoded(j, m).value) == Err(Malformed))
  {
    var m: Message<string> := Text(id, ts, SentText(typed));
    if Encoded(j, m).Ok? {
      DecodeInvertsEncode(j, m);
    }
    hide Decoded, Trimmed;
  }

  /** A text of 4097 plain letters is sent, and refused. */
  lemma LongTextIsLost(j: Json<string>, id: Bytes, ts: nat)
    requires var m: Message<string> := Text(id, ts, SentText(seq(4097, _ => 'a')));
             ReadsBack(j, m) && |j.write(FieldsOf(m))| <= 16384
    ensures var m: Message<string> := Text(id, ts, SentText(seq(4097, _ => 'a')));
            Encoded(j, m).Ok? && Decoded(j, Encoded(j, m).value) == Err(Malformed)
  {
    var typed := seq(4097, _ => 'a');
    assert typed[0] == 'a' && typed[|typed| - 1] == 'a';
    assert Trimmed(typed) == typed;
    TypedTextIsReadExactly(j, id, ts, typed);
    hide Decoded, Encoded, SentText, Trimmed;
  }

  lemma {:induction false} BytesOfRepeated(c: char, n: nat)
    ensures Naming.ByteLen(seq(n, _ => c)) == n * Naming.Width(c)
  {
    if n > 0 {
      BytesOfRepeated(c, n - 1);
      assert seq(n, _ => c)[1..] == seq(n - 1, _ => c);
      hide Naming.Width;
    }
  }

  /** Nor are 4096 characters always few enough: that many of four bytes fill the 16 KiB before the first brace. */
  lemma FullTextOfWideCharactersIsLost(j: Json<string>, id: Bytes, ts: nat)
    requires var m: Message<string> := Text(id, ts, seq(4096, _ => '\U{1F600}'));
             ReadsBack(j, m) && |j.write(FieldsOf(m))| > Naming.ByteLen(m.text)
    ensures var m: Message<string> := Text(id, ts, seq(4096, _ => '\U{1F600}'));
            Acceptable(m) && (Encoded(j, m).Ok? ==> Decoded(j, Encoded(j, m).value) == Err(TooLarge))
  {
    var m: Message<string> := Text(id, ts, seq(4096, _ => '\U{1F600}'));
    BytesOfRepeated('\U{1F600}', 4096);
    if Encoded(j, m).Ok? {
      DecodeInvertsEncode(j, m);
    }
    hide Decoded, Naming.ByteLen;
  }

  /** What the phone reads of a text the desktop would read too; the converse fails exactly between the two counts. */
  lemma TextsThePlatformsDisagreeOn(j: Json<string>, c: PhoneJson, id: Bytes, ts: nat, text: string)
    requires var m: Message<string> := Text(id, ts, text);
             ReadsBack(j, m) && PhoneReadsBack(j, c, m) && Encoded(j, m).Ok? && |Encoded(j, m).value| <= 16385
    ensures var frame := Encoded(j, Text(id, ts, text)).value;
            && (PhoneDecoded(c, frame).Some? ==> Decoded(j, frame).Ok?)
            && (Decoded(j, frame).Ok? && PhoneDecoded(c, frame).None? <==> |text| <= 4096 < |Link.Utf16(text)|)
  {
    var m: Message<string> := Text(id, ts, text);
    DecodeInvertsEncode(j, m);
    PhoneReadsDesktop(j, c, m);
    hide Decoded, PhoneDecoded, Encoded;
  }
}
