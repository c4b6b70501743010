/** The fragment of Rust's syntax tree that the generators inspect: a callable's
    signature, its parameters, their binding patterns and their types.
    Types and patterns are kept abstract: only the distinctions the code makes
    (a path type, a reference, anything else; a plain identifier binding or a
    destructuring one) are represented, the rest is opaque text. */
module Syntax {

  datatype Option<+T> = None | Some(value: T)

  /** One segment of a path: its identifier and the text of its generic arguments
      (`Foo<u8>` is identifier `Foo` with arguments `<u8>`; `u64` has none). */
  datatype Segment = Segment(ident: string, args: string)

  /** `Path` is a (possibly qualified) named type such as `u64` or `std::string::String`,
      one segment per path segment. `Reference` is `&T` or `&mut T`. Slices, tuples,
      arrays, trait objects and the like are `Other`. */
  datatype Ty =
    | Path(segments: seq<Segment>)
    | Reference(isMut: bool, elem: Ty)
    | Other(text: string)

  /** A parameter's binding: a plain identifier (`x`, `mut x`) or a destructuring pattern. */
  datatype Pat = Ident(name: string) | Complex(text: string)

  /** A parameter: the method receiver (`self`, `&self`, `&mut self`) or a typed one. */
  datatype FnArg = Receiver(isRef: bool) | Typed(pat: Pat, ty: Ty)

  datatype Signature = Signature(ident: string, inputs: seq<FnArg>, isAsync: bool, isUnsafe: bool)

  /** The text that the token printer is modelled to produce for a type; the exact
      spacing of the real printer is not part of this model. */
  function TyText(t: Ty): string
  {
    match t
    case Path(segments) => PathText(segments)
    case Reference(isMut, elem) => (if isMut then "&mut " else "&") + TyText(elem)
    case Other(text) => text
  }

  function PathText(segments: seq<Segment>): string
  {
    if |segments| == 0 then ""
    else if |segments| == 1 then segments[0].ident + segments[0].args
    else segments[0].ident + segments[0].args + "::" + PathText(segments[1..])
  }

  function JoinPath(segments: seq<string>): string
  {
    if |segments| == 0 then ""
    else if |segments| == 1 then segments[0]
    else segments[0] + "::" + JoinPath(segments[1..])
  }

  /** Appending a segment to a non-empty path appends `::` and the segment's text. */
  lemma {:induction false} JoinPathSnoc(segments: seq<string>, last: string)
    requires segments != []
    ensures JoinPath(segments + [last]) == JoinPath(segments) + "::" + last
    decreases |segments|
  {
    if |segments| > 1 {
      assert (segments + [last])[1..] == segments[1..] + [last];
      JoinPathSnoc(segments[1..], last);
    } else {
      assert (segments + [last])[1..] == [last];
    }
  }

  function PatText(p: Pat): string
  {
    match p
    case Ident(name) => name
    case Complex(text) => text
  }

  /** The positions, in the full parameter list, of the typed parameters, in
      increasing order. The harness renderers number their variables by these. */
  function TypedIndices(inputs: seq<FnArg>): (r: seq<nat>)
    ensures |r| <= |inputs|
    ensures forall k | 0 <= k < |r| :: r[k] < |inputs|
  {
    if |inputs| == 0 then []
    else
      var init := TypedIndices(inputs[..|inputs| - 1]);
      if inputs[|inputs| - 1].Typed? then init + [|inputs| - 1] else init
  }

  function CountTyped(inputs: seq<FnArg>): nat
  {
    if |inputs| == 0 then 0
    else CountTyped(inputs[..|inputs| - 1]) + (if inputs[|inputs| - 1].Typed? then 1 else 0)
  }

  /** The recorded indices are exactly the typed positions, each once, in increasing order. */
  lemma {:induction false} TypedIndicesExact(inputs: seq<FnArg>)
    ensures |TypedIndices(inputs)| == CountTyped(inputs)
    ensures forall k, l | 0 <= k < l < |TypedIndices(inputs)| ::
      TypedIndices(inputs)[k] < TypedIndices(inputs)[l]
    ensures forall n: nat :: n in TypedIndices(inputs) <==> n < |inputs| && inputs[n].Typed?
  {
    if |inputs| > 0 {
      var init := inputs[..|inputs| - 1];
      TypedIndicesExact(init);
      assert forall n: nat | n < |init| :: init[n] == inputs[n];
    }
  }
}
