/**
 * The job payload's `buffer` field: the `zod` union that accepts a Buffer, a
 * base64 string or a serialised `{ type: "Buffer", data: [...] }` object, and
 * the step after parsing that turns the accepted value into one Buffer.
 * Node's base64 decoder and JavaScript's string-to-number conversion are
 * foreign; they arrive as the parameters `base64` and `textToByte`.
 */
module BufferInput {
  import opened Wrappers

  newtype byte = x: int | 0 <= x < 256

  type Bytes = seq<byte>

  /** An element of `data`: the schema accepts strings and (here, integral) numbers only. */
  datatype Element = Text(s: string) | Number(n: int) | OtherElement

  /** The `buffer` value as it arrives in the job's data. */
  datatype Input =
    | BufferValue(bytes: Bytes)
    | Base64String(s: string)
    | BufferObject(typeTag: string, data: seq<Element>)
    | OtherInput

  /** The value the union parses to: a Buffer, or the object with `data` already converted. */
  datatype Parsed = AsBuffer(bytes: Bytes) | AsObject(data: Bytes)

  /** The schema's rejection of the `buffer` field. */
  datatype ValidationError = NotAcceptedByUnion

  /** Storing a number into a byte of a Buffer (ToUint8): the value modulo 256. */
  function ToUint8(n: int): byte
  {
    (n % 256) as byte
  }

  /** The decimal text of an integer, as `String(n)` writes it. */
  function DecimalText(n: nat): string
    decreases n
  {
    var digit := ['0', '1', '2', '3', '4', '5', '6', '7', '8', '9'][n % 10];
    if n < 10 then [digit] else DecimalText(n / 10) + [digit]
  }

  /** The text an element contributes to `val.join("")`. */
  function ElementText(e: Element): string
  {
    match e
    case Text(s) => s
    case Number(n) => if n < 0 then "-" + DecimalText(-n) else DecimalText(n)
    case OtherElement => ""
  }

  /** `val.join("")` */
  function Join(data: seq<Element>): string
  {
    if data == [] then "" else ElementText(data[0]) + Join(data[1..])
  }

  /** `Buffer.from(val as number[])`: each element converted to a number, then stored as a byte. */
  function FromArray(data: seq<Element>, textToByte: string -> byte): (b: Bytes)
    ensures |b| == |data|
    ensures forall i :: 0 <= i < |data| && data[i].Number? ==> b[i] == ToUint8(data[i].n)
    ensures forall i :: 0 <= i < |data| && data[i].Text? ==> b[i] == textToByte(data[i].s)
  {
    seq(|data|, i requires 0 <= i < |data| =>
      match data[i]
      case Number(n) => ToUint8(n)
      case Text(s) => textToByte(s)
      case OtherElement => 0)
  }

  /**
   * The `buffer` member of the schema: the first option of the union that
   * accepts the value wins.
   */
  function ParseBuffer(input: Input, base64: string -> Bytes, textToByte: string -> byte): (r: Result<Parsed, ValidationError>)
    ensures r.Err? <==>
      || input.OtherInput?
      || (input.BufferObject? && (input.typeTag != "Buffer" || exists i :: 0 <= i < |input.data| && input.data[i].OtherElement?))
  {
    match input
    case BufferValue(b) => Ok(AsBuffer(b))
    case Base64String(s) => Ok(AsBuffer(base64(s)))
    case BufferObject(tag, data) =>
      if tag != "Buffer" || exists i :: 0 <= i < |data| && data[i].OtherElement? then Err(NotAcceptedByUnion)
      else if |data| > 0 && data[0].Text? then Ok(AsObject(base64(Join(data))))
      else Ok(AsObject(FromArray(data, textToByte)))
    case OtherInput => Err(NotAcceptedByUnion)
  }

  /** `reqBuffer instanceof Buffer ? reqBuffer : Buffer.from(reqBuffer.data)` */
  function Resolve(p: Parsed): Bytes
  {
    match p
    case AsBuffer(b) => b
    case AsObject(data) => data
  }

  /** The canonical bytes of the `buffer` field, or the validation error. */
  function Normalise(input: Input, base64: string -> Bytes, textToByte: string -> byte): Result<Bytes, ValidationError>
  {
    match ParseBuffer(input, base64, textToByte)
    case Ok(p) => Ok(Resolve(p))
    case Err(e) => Err(e)
  }

  /** The `data` array of a serialised Buffer: one number per byte. */
  function AsNumbers(b: Bytes): (data: seq<Element>)
    ensures |data| == |b|
    ensures forall i :: 0 <= i < |b| ==> data[i] == Number(b[i] as int)
  {
    seq(|b|, i requires 0 <= i < |b| => Number(b[i] as int))
  }

  /** A serialised Buffer's byte numbers give back the same bytes. */
  lemma NumbersRoundTrip(b: Bytes, base64: string -> Bytes, textToByte: string -> byte)
    ensures Normalise(BufferObject("Buffer", AsNumbers(b)), base64, textToByte) == Ok(b)
  {
    var data := AsNumbers(b);
    var out := FromArray(data, textToByte);
    forall i | 0 <= i < |b|
      ensures out[i] == b[i]
    {
      assert data[i].Number?;
    }
    assert out == b;
    assert !exists i :: 0 <= i < |data| && data[i].OtherElement?;
    assert ParseBuffer(BufferObject("Buffer", data), base64, textToByte) == Ok(AsObject(out)) by {
      if |data| > 0 {
        assert data[0].Number?;
      }
    }
  }

  /** An empty `data` array takes the numeric path and gives an empty Buffer. */
  lemma EmptyDataIsEmpty(base64: string -> Bytes, textToByte: string -> byte)
    ensures Normalise(BufferObject("Buffer", []), base64, textToByte) == Ok([])
  {
  }

  /**
   * Base64 fragments are joined and decoded: the object form with fragments
   * gives the same bytes as the string form of their concatenation.
   */
  lemma FragmentsAsString(fragments: seq<string>, base64: string -> Bytes, textToByte: string -> byte)
    requires |fragments| > 0
    ensures var data := seq(|fragments|, i requires 0 <= i < |fragments| => Text(fragments[i]));
            Normalise(BufferObject("Buffer", data), base64, textToByte)
              == Normalise(Base64String(Join(data)), base64, textToByte)
  {
  }

  /**
   * A `data` array that is empty or starts with a number takes the numeric
   * path: every element is stored into the Buffer on its own.
   */
  lemma NumericPathFromArray(data: seq<Element>, base64: string -> Bytes, textToByte: string -> byte)
    requires |data| == 0 || !data[0].Text?
    requires forall i :: 0 <= i < |data| ==> !data[i].OtherElement?
    ensures Normalise(BufferObject("Buffer", data), base64, textToByte) == Ok(FromArray(data, textToByte))
  {
    assert !exists i :: 0 <= i < |data| && data[i].OtherElement?;
  }

  /** Numbers outside 0..255 wrap around when stored: `[256, -1]` becomes `[0, 255]`. */
  lemma WrapAroundExample(base64: string -> Bytes, textToByte: string -> byte)
    ensures Normalise(BufferObject("Buffer", [Number(256), Number(-1)]), base64, textToByte) == Ok([0, 255])
  {
    var data := [Number(256), Number(-1)];
    NumericPathFromArray(data, base64, textToByte);
    var b := FromArray(data, textToByte);
    assert b[0] == ToUint8(256) == 0;
    assert b[1] == ToUint8(-1) == 255;
    assert b == [0, 255];
  }

  /**
   * The join path is chosen by the first element alone: a `data` array that
   * starts with a string is joined as text and base64-decoded, even when later
   * elements are numbers.
   */
  lemma TextFirstJoins(data: seq<Element>, base64: string -> Bytes, textToByte: string -> byte)
    requires |data| > 0 && data[0].Text?
    requires forall i :: 0 <= i < |data| ==> !data[i].OtherElement?
    ensures Normalise(BufferObject("Buffer", data), base64, textToByte) == Ok(base64(Join(data)))
  {
    assert !exists i :: 0 <= i < |data| && data[i].OtherElement?;
    assert ParseBuffer(BufferObject("Buffer", data), base64, textToByte) == Ok(AsObject(base64(Join(data))));
  }

  /**
   * The three encodings of the same bytes resolve to the same Buffer: the
   * Buffer itself, a base64 string of it, a one-fragment object of that string
   * and the serialised object of its byte numbers.
   */
  lemma EncodingsAgree(b: Bytes, s: string, base64: string -> Bytes, textToByte: string -> byte)
    requires base64(s) == b
    ensures Normalise(Base64String(s), base64, textToByte) == Ok(b)
    ensures Normalise(BufferObject("Buffer", [Text(s)]), base64, textToByte) == Ok(b)
    ensures Normalise(BufferObject("Buffer", AsNumbers(b)), base64, textToByte) == Ok(b)
    ensures Normalise(BufferValue(b), base64, textToByte) == Ok(b)
  {
    assert Join([Text(s)]) == s + "" == s;
    NumbersRoundTrip(b, base64, textToByte);
  }
}
