/** The request normalisation of src/index.ts line 30: destructuring
    `req.body`, with a default for each optional field that is absent. */
module Requests {
  import opened Wrappers
  import opened JsValues

  /** The destructured body. `code` keeps JavaScript's `undefined` (None),
      because the handler tests it for truthiness; every other field has
      had its default filled in. */
  datatype Request = Request(
    code: Option<Json>,
    compositionId: Json,
    durationInFrames: Json,
    fps: Json,
    width: Json,
    height: Json)
  {
    /** `!code` is false: `code` is present and truthy. */
    predicate HasCode() {
      code.Some? && Truthy(code.value)
    }
  }

  const DefaultCompositionId: Json := JString("DynamicComponent")
  const DefaultDurationInFrames: Json := JNumber(150)
  const DefaultFps: Json := JNumber(30)
  const DefaultWidth: Json := JNumber(1920)
  const DefaultHeight: Json := JNumber(1080)

  /** Reading property `key` of a parsed body: only an object has the
      properties the handler asks for. */
  function Property(v: Json, key: string): Option<Json>
  {
    if v.JObject? && key in v.fields then Some(v.fields[key]) else None
  }

  /** A destructuring default: the supplied value when there is one, the
      default when the property is absent (`null` is not absent). */
  predicate Defaulted(field: Json, supplied: Option<Json>, default: Json) {
    (supplied.None? ==> field == default) && (supplied.Some? ==> field == supplied.value)
  }

  /** V8's TypeErrors for destructuring an `undefined` or `null` body. */
  const UndefinedBodyMessage: string := "Cannot destructure property 'code' of 'req.body' as it is undefined."
  const NullBodyMessage: string := "Cannot destructure property 'code' of 'req.body' as it is null."

  /** Reading the six request parameters out of the body: `code` as it is,
      and each of the other five replaced by its default (the id
      "DynamicComponent", 150 frames, 30 frames per second, 1920 by 1080)
      when the body lacks it or holds `undefined` there. A body that is
      `undefined` or `null` throws V8's TypeError instead. */
  function Destructure(body: Option<Json>): (r: Completion<Request>)
    ensures r.Threw? <==> body.None? || body.value.JNull?
    ensures r.Threw? ==> r.thrown.ErrorObject?
    ensures r.Returned? ==> r.value.code == Property(body.value, "code")
    ensures r.Returned? ==> Defaulted(r.value.compositionId, Property(body.value, "compositionId"), JString("DynamicComponent"))
    ensures r.Returned? ==> Defaulted(r.value.durationInFrames, Property(body.value, "durationInFrames"), JNumber(150))
    ensures r.Returned? ==> Defaulted(r.value.fps, Property(body.value, "fps"), JNumber(30))
    ensures r.Returned? ==> Defaulted(r.value.width, Property(body.value, "width"), JNumber(1920))
    ensures r.Returned? ==> Defaulted(r.value.height, Property(body.value, "height"), JNumber(1080))
  {
    match body
    case None => Threw(ErrorObject(UndefinedBodyMessage))
    case Some(JNull) => Threw(ErrorObject(NullBodyMessage))
    case Some(v) =>
      Returned(Request(
        Property(v, "code"),
        Property(v, "compositionId").GetOr(DefaultCompositionId),
        Property(v, "durationInFrames").GetOr(DefaultDurationInFrames),
        Property(v, "fps").GetOr(DefaultFps),
        Property(v, "width").GetOr(DefaultWidth),
        Property(v, "height").GetOr(DefaultHeight)))
  }

  /** The falsy values of `code` that the handler turns away with 400:
      absent, `null`, `false`, `0` and the empty string; every other value
      passes, including `{}`, `[]` and non-string values. */
  lemma MissingCodeValues(r: Request)
    ensures !r.HasCode() <==>
      r.code in {None, Some(JNull), Some(JBool(false)), Some(JNumber(0)), Some(JString(""))}
  {
  }
}
