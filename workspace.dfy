/** The three files the handler writes into the workspace
    (src/index.ts lines 39-51): the caller's component, the generated entry
    module and the package manifest; and a reader for the entry module's
    one `<Composition>` declaration, which is what a bundler resolving the
    composition by id would read back. */
module Workspace {
  import opened Wrappers
  import opened JsValues
  import opened Files
  import opened Requests

  /** The component file is written with `code` as it came: a string is
      written verbatim, anything else is rejected by Node. */
  function ComponentArg(code: Json): WriteArg
  {
    if code.JString? then Accepted(Text(code.s)) else Rejected(code)
  }

  /** The template text before the composition id. */
  const EntryHead: string :=
    "\nimport { registerRoot, Composition } from \"remotion\";\nimport React from \"react\";\nimport DynamicComponent from \"./Component\";\n\nconst Root: React.FC = () => (\n  <Composition id=\""
  /** The template text between the closing quote of the id and the frame count. */
  const AfterId: string := " component={DynamicComponent} durationInFrames={"
  const FpsAttr: string := " fps={"
  const WidthAttr: string := " width={"
  const HeightAttr: string := " height={"
  /** The template text after the height's closing brace. */
  const EntryTail: string := " />\n);\nregisterRoot(Root);\n"

  /** The entry module with the five interpolated texts in place. */
  function EntryText(id: string, duration: string, fps: string, width: string, height: string): string {
    EntryHead + id + "\"" +
      (AfterId + duration + "}" +
        (FpsAttr + fps + "}" +
          (WidthAttr + width + "}" +
            (HeightAttr + height + "}" + EntryTail))))
  }

  /** The entry module the handler writes for a request: the template
      literal converts its five parameters left to right with `String(...)`,
      and the first conversion that throws makes the whole template throw
      before `writeFileSync` is called. */
  function EntryModule(r: Request): (m: Completion<string>)
    ensures m.Threw? ==> m.thrown == ErrorObject(NoPrimitiveMessage)
  {
    var id, duration, fps, width, height :=
      ToStr(r.compositionId), ToStr(r.durationInFrames), ToStr(r.fps), ToStr(r.width), ToStr(r.height);
    if id.Threw? then Threw(id.thrown)
    else if duration.Threw? then Threw(duration.thrown)
    else if fps.Threw? then Threw(fps.thrown)
    else if width.Threw? then Threw(width.thrown)
    else if height.Threw? then Threw(height.thrown)
    else Returned(EntryText(id.value, duration.value, fps.value, width.value, height.value))
  }

  /** The template throws exactly when one of the five parameters is not
      printable. */
  lemma EntryModuleThrowsIff(r: Request)
    ensures EntryModule(r).Threw? <==>
      !(Printable(r.compositionId) && Printable(r.durationInFrames) && Printable(r.fps) &&
        Printable(r.width) && Printable(r.height))
  {
    ToStrThrowsIff(r.compositionId);
    ToStrThrowsIff(r.durationInFrames);
    ToStrThrowsIff(r.fps);
    ToStrThrowsIff(r.width);
    ToStrThrowsIff(r.height);
  }

  /** The pinned dependencies of the generated `package.json`. */
  const Dependencies: seq<(string, string)> :=
    [("remotion", "^4.0.0"), ("react", "^18.2.0"), ("react-dom", "^18.2.0")]

  /** The generated `package.json`, by its fields. */
  function PackageManifest(renderId: string): Contents {
    Manifest("render-" + renderId, "1.0.0", Dependencies)
  }

  /** Two workspaces carry the same package name only if they belong to the
      same render. */
  lemma PackageNameInjective(a: string, b: string)
    requires PackageManifest(a) == PackageManifest(b)
    ensures a == b
  {
    assert a == PackageManifest(a).name[7..];
    assert b == PackageManifest(b).name[7..];
  }

  /** The render target declared by an entry module, as the texts of its
      attributes. */
  datatype Declaration = Declaration(id: string, durationInFrames: string, fps: string, width: string, height: string)

  /** Splits `s` at the first occurrence of `c`, dropping `c`. */
  function TakeUntil(s: string, c: char): (r: Option<(string, string)>)
    ensures r.Some? ==> c !in r.value.0 && s == r.value.0 + [c] + r.value.1
    ensures r.None? ==> c !in s
  {
    if s == [] then None
    else if s[0] == c then Some(([], s[1..]))
    else match TakeUntil(s[1..], c)
      case None => None
      case Some((a, b)) => Some(([s[0]] + a, b))
  }

  /** A literal `lit`, then text up to the first `stop`. */
  function Field(s: string, lit: string, stop: char): (r: Option<(string, string)>)
    ensures r.Some? ==> stop !in r.value.0 && s == lit + r.value.0 + [stop] + r.value.1
  {
    if lit <= s then TakeUntil(s[|lit|..], stop) else None
  }

  /** Reads the declaration back from an entry module the way JSX reads it:
      the id attribute is a string that ends at the first double quote, and
      each numeric attribute an expression that ends at the first brace.
      JSX decodes character references such as `&amp;` in attribute
      strings; this reader does not decode them and reads no id that
      contains `&`. */
  function ParseEntry(text: string): (r: Option<Declaration>)
    ensures r.Some? ==> '"' !in r.value.id && '&' !in r.value.id
    ensures r.Some? ==> text == EntryText(r.value.id, r.value.durationInFrames, r.value.fps, r.value.width, r.value.height)
  {
    match Field(text, EntryHead, '"')
    case None => None
    case Some((id, r1)) =>
      if '&' in id then None else
      match Field(r1, AfterId, '}')
      case None => None
      case Some((duration, r2)) =>
        match Field(r2, FpsAttr, '}')
        case None => None
        case Some((fps, r3)) =>
          match Field(r3, WidthAttr, '}')
          case None => None
          case Some((width, r4)) =>
            match Field(r4, HeightAttr, '}')
            case None => None
            case Some((height, r5)) =>
              if r5 == EntryTail then Some(Declaration(id, duration, fps, width, height)) else None
  }

  /** The first occurrence of `c` is found after any text without `c`. */
  lemma {:induction false} TakeUntilFirst(a: string, c: char, b: string)
    requires c !in a
    ensures TakeUntil(a + [c] + b, c) == Some((a, b))
  {
    if a == [] {
      assert a + [c] + b == [c] + b;
    } else {
      assert (a + [c] + b)[1..] == a[1..] + [c] + b;
      TakeUntilFirst(a[1..], c, b);
      assert [a[0]] + a[1..] == a;
    }
  }

  lemma FieldFirst(lit: string, v: string, stop: char, rest: string)
    requires stop !in v
    ensures Field(lit + v + [stop] + rest, lit, stop) == Some((v, rest))
  {
    var s := lit + v + [stop] + rest;
    assert s[|lit|..] == v + [stop] + rest;
    TakeUntilFirst(v, stop, rest);
  }

  /** An entry module whose id text has no double quote and no `&`, and
      whose numeric texts have no closing brace, declares exactly those five
      texts. */
  lemma EntryRoundTrip(id: string, duration: string, fps: string, width: string, height: string)
    requires '"' !in id && '&' !in id
    requires '}' !in duration && '}' !in fps && '}' !in width && '}' !in height
    ensures ParseEntry(EntryText(id, duration, fps, width, height)) == Some(Declaration(id, duration, fps, width, height))
  {
    var r5 := EntryTail;
    var r4 := HeightAttr + height + "}" + r5;
    var r3 := WidthAttr + width + "}" + r4;
    var r2 := FpsAttr + fps + "}" + r3;
    var r1 := AfterId + duration + "}" + r2;
    FieldFirst(EntryHead, id, '"', r1);
    FieldFirst(AfterId, duration, '}', r2);
    FieldFirst(FpsAttr, fps, '}', r3);
    FieldFirst(WidthAttr, width, '}', r4);
    FieldFirst(HeightAttr, height, '}', r5);
  }

  /** The declared render target is named exactly by the interpolated
      compositionId when that text has neither a double quote nor `&`; a
      double quote ends the JSX attribute early, and the bundle then
      declares a different id from the one `selectComposition` asks for. */
  lemma DeclaredIdIsCompositionId(id: string, duration: string, fps: string, width: string, height: string)
    requires '}' !in duration && '}' !in fps && '}' !in width && '}' !in height
    ensures '"' !in id && '&' !in id ==>
      var d := ParseEntry(EntryText(id, duration, fps, width, height)); d.Some? && d.value.id == id
    ensures '"' in id ==>
      var d := ParseEntry(EntryText(id, duration, fps, width, height)); !(d.Some? && d.value.id == id)
  {
    if '"' !in id && '&' !in id {
      EntryRoundTrip(id, duration, fps, width, height);
    }
  }

  /** For a string compositionId without quotes or `&` and integer
      parameters, the template does not throw, the entry module declares
      that id, and its numeric attributes read back as the four resolved
      numbers. */
  lemma EntryModuleDeclaresRequest(r: Request)
    requires r.compositionId.JString? && '"' !in r.compositionId.s && '&' !in r.compositionId.s
    requires r.durationInFrames.JNumber? && r.fps.JNumber? && r.width.JNumber? && r.height.JNumber?
    ensures EntryModule(r).Returned?
    ensures ParseEntry(EntryModule(r).value) == Some(Declaration(r.compositionId.s,
      IntToString(r.durationInFrames.n), IntToString(r.fps.n), IntToString(r.width.n), IntToString(r.height.n)))
    ensures ParseInt(ParseEntry(EntryModule(r).value).value.durationInFrames) == r.durationInFrames.n
    ensures ParseInt(ParseEntry(EntryModule(r).value).value.fps) == r.fps.n
    ensures ParseInt(ParseEntry(EntryModule(r).value).value.width) == r.width.n
    ensures ParseInt(ParseEntry(EntryModule(r).value).value.height) == r.height.n
  {
    var d, f, w, h := r.durationInFrames.n, r.fps.n, r.width.n, r.height.n;
    ToStrThrowsIff(r.compositionId);
    ToStrThrowsIff(r.durationInFrames);
    ToStrThrowsIff(r.fps);
    ToStrThrowsIff(r.width);
    ToStrThrowsIff(r.height);
    assert EntryModule(r) == Returned(EntryText(r.compositionId.s, IntToString(d), IntToString(f), IntToString(w), IntToString(h)));
    assert '}' !in IntToString(d) && '}' !in IntToString(f) && '}' !in IntToString(w) && '}' !in IntToString(h);
    EntryRoundTrip(r.compositionId.s, IntToString(d), IntToString(f), IntToString(w), IntToString(h));
    IntToStringRoundTrip(d);
    IntToStringRoundTrip(f);
    IntToStringRoundTrip(w);
    IntToStringRoundTrip(h);
  }
}
