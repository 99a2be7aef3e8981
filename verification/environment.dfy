/** The foreign collaborators the backend services call, gathered as data so
    that every service is a function of its request and this environment:
    the clock, SHA-256, Python's per-process salted `hash`, base64 and image
    decoding, the YOLO model's output and the detector's class list. */
module Environment {
  import opened Wrappers
  import Yolo

  predicate IsHexDigit(c: char)
  {
    '0' <= c <= '9' || 'a' <= c <= 'f'
  }

  /** `hashlib.sha256(...).hexdigest()`: 64 lower-case hexadecimal digits. */
  type HexDigest = s: string | |s| == 64 && forall i :: 0 <= i < |s| ==> IsHexDigit(s[i])
    witness seq(64, _ => '0')

  datatype Env = Env(
    timestamp: string,                   // str(time.time()) taken as start_time
    elapsed: real,                       // time.time() - start_time when the response is built
    sha256Hex: string -> HexDigest,      // hashlib.sha256(s.encode("utf-8")).hexdigest()
    pyHash: string -> int,               // Python's built-in hash of a str
    b64Decodes: string -> bool,          // base64.b64decode(s) does not raise
    imageOpens: string -> bool,          // b64decode + PIL Image.open succeed on s
    decodeError: Option<string> -> string, // str(e) of the exception decoding this image data raises
    floatStr: real -> string,            // str(x) of a Python float
    yolo: Option<seq<Yolo.YoloResult>>,  // model output; None: no model, or inference raised
    classes: seq<string>)                // the detector's class list (classes.json or fallback)
}
