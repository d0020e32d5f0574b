// The slice of Python's runtime that the application's code relies on:
// exceptions, the values that cross the decorators, truthiness, str.strip
// and str.lower, and the 8-bit RGB images PIL hands around.

module Python {

  /** numpy's uint8 */
  newtype u8 = x: int | 0 <= x < 256

  datatype Rgb = Rgb(r: u8, g: u8, b: u8)

  const Black: Rgb := Rgb(0, 0, 0)

  /** An RGB raster as PIL stores it: `height` rows of `width` pixels. */
  datatype Picture = Picture(width: nat, height: nat, pixels: seq<seq<Rgb>>)
  {
    predicate WellFormed() {
      |pixels| == height && forall i :: 0 <= i < |pixels| ==> |pixels[i]| == width
    }
  }

  /** PIL's `Image.Image` in mode "RGB": a rectangular picture. */
  type Image = p: Picture | p.WellFormed() witness Picture(0, 0, [])

  datatype ExceptionKind =
    | ValueError | TypeError | FileNotFoundError | ImportError
    | ZeroDivisionError | OSError | RuntimeError

  /** A raised Python exception: its class and `str(e)`. */
  datatype Exception = Exception(kind: ExceptionKind, msg: string)

  /** Either a return value or a raised exception. */
  datatype Outcome<+T> = Ok(value: T) | Err(exc: Exception)

  datatype Option<+T> = None | Some(value: T)

  /** The Python values that flow through the decorated calls. */
  datatype Value =
    | NoneValue
    | BoolValue(b: bool)
    | IntValue(i: int)
    | FloatValue(f: real)
    | StrValue(s: string)
    | DictValue(entries: map<string, Value>)
    | TupleValue(items: seq<Value>)
    | ImageValue(image: Image)
    | ObjectValue(id: nat)

  /** `bool(v)`: None, False, zero and empty containers are falsy; a PIL image
      and any other object define neither __bool__ nor __len__ and are truthy. */
  function Truthy(v: Value): (b: bool)
    ensures (v.NoneValue? || v == BoolValue(false) || v == IntValue(0) || v == StrValue("")
             || v == TupleValue([])) ==> !b
    ensures v.DictValue? && v.entries == map[] ==> !b
    ensures v.ImageValue? || v.ObjectValue? ==> b
  {
    match v
    case NoneValue => false
    case BoolValue(b) => b
    case IntValue(i) => i != 0
    case FloatValue(f) => f != 0.0
    case StrValue(s) => s != ""
    case DictValue(m) => |m| != 0
    case TupleValue(t) => t != []
    case ImageValue(_) => true
    case ObjectValue(_) => true
  }

  /** `str.isspace` for one character: exactly the code points CPython treats as whitespace. */
  predicate IsSpace(c: char) {
    ('\U{0009}' <= c <= '\U{000D}') || ('\U{001C}' <= c <= '\U{001F}') || c == ' ' ||
    c == '\U{0085}' || c == '\U{00A0}' || c == '\U{1680}' || ('\U{2000}' <= c <= '\U{200A}') ||
    c == '\U{2028}' || c == '\U{2029}' || c == '\U{202F}' || c == '\U{205F}' || c == '\U{3000}'
  }

  predicate IsBlank(s: string) {
    forall i :: 0 <= i < |s| ==> IsSpace(s[i])
  }

  /** How many whitespace characters `s` starts with. */
  function LeadingSpaces(s: string): (n: nat)
    ensures n <= |s|
    ensures forall k :: 0 <= k < n ==> IsSpace(s[k])
    ensures n < |s| ==> !IsSpace(s[n])
  {
    if |s| > 0 && IsSpace(s[0]) then 1 + LeadingSpaces(s[1..]) else 0
  }

  /** How many whitespace characters `s` ends with. */
  function TrailingSpaces(s: string): (n: nat)
    ensures n <= |s|
    ensures forall k :: |s| - n <= k < |s| ==> IsSpace(s[k])
    ensures n < |s| ==> !IsSpace(s[|s| - n - 1])
  {
    if |s| > 0 && IsSpace(s[|s| - 1]) then 1 + TrailingSpaces(s[..|s| - 1]) else 0
  }

  /** Where the text `str.strip()` keeps ends: before the trailing whitespace. */
  function StripEnd(s: string): (j: nat)
    ensures j <= |s|
  {
    |s| - TrailingSpaces(s)
  }

  /** Where the text `str.strip()` keeps begins: after the leading whitespace of
      what is left once the trailing whitespace is gone. */
  function StripStart(s: string): (i: nat)
    ensures i <= StripEnd(s)
  {
    LeadingSpaces(s[..StripEnd(s)])
  }

  /** `str.strip()` with no argument: the slice of `s` left once the whitespace
      at both ends is removed; it neither starts nor ends with whitespace, and
      only whitespace lies around it. */
  function Strip(s: string): (r: string)
    ensures r != "" ==> !IsSpace(r[0]) && !IsSpace(r[|r| - 1])
    ensures StripStart(s) + |r| <= |s| && r == s[StripStart(s)..StripStart(s) + |r|]
    ensures forall k :: 0 <= k < StripStart(s) ==> IsSpace(s[k])
    ensures forall k :: StripStart(s) + |r| <= k < |s| ==> IsSpace(s[k])
  {
    var t := s[..StripEnd(s)];
    assert forall k :: 0 <= k < |t| ==> t[k] == s[k];
    s[StripStart(s)..StripEnd(s)]
  }

  /** `s.strip() == ""` holds exactly for the strings made only of whitespace,
      the empty string included. */
  lemma StripEmptyIffBlank(s: string)
    ensures Strip(s) == "" <==> IsBlank(s)
  {
    var r := Strip(s);
    if r != "" {
      assert !IsBlank(s) by { assert r[0] == s[StripStart(s)]; }
    }
  }

  function LowerChar(c: char): char {
    if 'A' <= c <= 'Z' then (c as int + 32) as char else c
  }

  /** `str.lower()` on the ASCII letters. */
  function Lower(s: string): (r: string)
    ensures |r| == |s|
    ensures forall i :: 0 <= i < |s| ==> r[i] == LowerChar(s[i])
  {
    if s == [] then [] else [LowerChar(s[0])] + Lower(s[1..])
  }
}
