/**
 * The length-gated description box: edits reach the parent's `onChange` only
 * while they fit in `maxLength`, and an info line under the box shows either
 * the maximum or, at the limit, a "limit reached" message.
 */
module DescriptionTextArea {
  import opened Wrappers
  import opened Text

  /** The `maxLength` a parent that passes none gets. */
  const DefaultMaxLength := 200

  /** The translation key used as placeholder, whatever `placeholder` prop is passed. */
  const PlaceholderKey := "profile.writeDescriptionPlaceholder"

  /** `handleChange`: the value forwarded to `onChange`, if any. */
  function HandleChange(newValue: string, maxLength: int := DefaultMaxLength): (forwarded: Option<string>)
    ensures forwarded.Some? <==> |newValue| <= maxLength
    ensures forwarded.Some? ==> forwarded.value == newValue
  {
    if |newValue| <= maxLength then Some(newValue) else None
  }

  /** The values reported through `onChange` over a series of edits, in order. */
  function Forwarded(edits: seq<string>, maxLength: int): (reported: seq<string>)
    ensures |reported| <= |edits|
    ensures forall v :: v in reported <==> v in edits && |v| <= maxLength
  {
    if edits == [] then []
    else match HandleChange(edits[0], maxLength)
      case Some(v) => [v] + Forwarded(edits[1..], maxLength)
      case None => Forwarded(edits[1..], maxLength)
  }

  /** One more edit adds its value at the end of the report iff it fits: order and repetitions are kept. */
  lemma {:induction false} ForwardedAppend(edits: seq<string>, e: string, maxLength: int)
    ensures Forwarded(edits + [e], maxLength) == Forwarded(edits, maxLength) + (if |e| <= maxLength then [e] else [])
    decreases |edits|
  {
    if edits != [] {
      assert (edits + [e])[1..] == edits[1..] + [e];
      ForwardedAppend(edits[1..], e, maxLength);
    }
  }

  /** A value of exactly `maxLength` characters is accepted and one of `maxLength + 1` is not. */
  lemma LimitBoundary(s: string, maxLength: int)
    ensures |s| == maxLength ==> HandleChange(s, maxLength) == Some(s)
    ensures |s| == maxLength + 1 ==> HandleChange(s, maxLength) == None
  {
  }

  datatype InfoMessage = CharacterLimit(max: int) | MaxChars(max: int)

  /** What the component shows: the placeholder, whether the box is styled as an error, and the info line. */
  datatype View = View(placeholder: string, errorStyle: bool, info: Option<InfoMessage>)

  /** The rendered state for a value; the `placeholder` prop is accepted and ignored. */
  function Render(value: string, maxLength: int, placeholder: string): (v: View)
    ensures v.placeholder == PlaceholderKey
    ensures v.errorStyle <==> |value| == maxLength
    ensures v.info.Some? <==> !IsBlank(value)
    ensures v.info == Some(CharacterLimit(maxLength)) <==> !IsBlank(value) && |value| == maxLength
    ensures v.info == Some(MaxChars(maxLength)) <==> !IsBlank(value) && |value| != maxLength
  {
    var isMax := |value| == maxLength;
    var shouldShowInfo := |Trim(value)| > 0;
    View(PlaceholderKey, isMax,
         if shouldShowInfo then Some(if isMax then CharacterLimit(maxLength) else MaxChars(maxLength)) else None)
  }
}
