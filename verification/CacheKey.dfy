/**
 The request cache key: the text that is hashed is the source hash, a colon and the
 request as canonical JSON without its source asset id. The digest itself is not modelled;
 the proof is about the text, which tells any two different requests apart.
 */
module CacheKey {
  import opened Base
  import opened Contracts
  import opened JsonText

  const NORMALIZED_SOURCE := "__normalized_source__"

  // ---- The request as JSON, its keys in sorted order ----

  function Decimal(n: nat): (r: Token)
    ensures forall c | c in r :: '0' <= c <= '9'
  {
    var digit := (n % 10 + '0' as int) as char;
    if n < 10 then [digit] else Decimal(n / 10) + [digit]
  }

  function DecimalValue(s: string): int {
    if s == [] then 0 else 10 * DecimalValue(s[..|s| - 1]) + (s[|s| - 1] as int - '0' as int)
  }

  lemma {:induction false} DecimalRoundTrip(n: nat)
    ensures DecimalValue(Decimal(n)) == n
  {
    var digit := (n % 10 + '0' as int) as char;
    if n < 10 {
      assert Decimal(n)[..0] == [];
    } else {
      DecimalRoundTrip(n / 10);
      assert Decimal(n)[..|Decimal(n)| - 1] == Decimal(n / 10);
    }
  }

  function Optional(n: Option<nat>): Json {
    if n.None? then Null else Number(Decimal(n.value))
  }

  function ShadowModelName(m: ShadowModel): string {
    if m == V1Gan then "v1-gan" else "v2-diff"
  }

  function BackgroundModeName(m: BackgroundMode): string {
    if m == Solid then "solid" else "transparent"
  }

  function OutputFormatName(f: OutputFormat): string {
    if f == Png then "png" else "jpeg"
  }

  function BackgroundJson(b: BackgroundSpec): Json {
    Object(Field("color_hex", Text(b.colorHex), Field("mode", Text(BackgroundModeName(b.mode)), Nil)))
  }

  function OutputJson(o: OutputSpec): Json {
    Object(Field("format", Text(OutputFormatName(o.format)),
           Field("height", Optional(o.height),
           Field("return_debug", Bool(o.returnDebug),
           Field("width", Optional(o.width), Nil)))))
  }

  function PreprocessJson(p: PreprocessSpec): Json {
    Object(Field("padding_px", Number(Decimal(p.paddingPx)), Nil))
  }

  function ShadowJson(s: ShadowSettings): Json {
    Object(Field("angle_deg", Number(s.angleDeg),
           Field("elevation_deg", Number(s.elevationDeg),
           Field("model", Text(ShadowModelName(s.model)),
           Field("opacity", Number(s.opacity),
           Field("reflection", Number(s.reflection),
           Field("softness", Number(s.softness), Nil)))))))
  }

  function RequestFields(r: RenderRequest): Fields {
    Field("background", BackgroundJson(r.background),
    Field("output", OutputJson(r.output),
    Field("pipeline_version", Text(r.pipelineVersion),
    Field("preprocess", PreprocessJson(r.preprocess),
    Field("shadow", ShadowJson(r.shadow),
    Field("source_asset_id", Text(r.sourceAssetId), Nil))))))
  }

  function NormalizedJson(r: RenderRequest): string {
    Print(Object(RequestFields(r.(sourceAssetId := NORMALIZED_SOURCE))))
  }

  /** The text `render_request_key` hashes. */
  function Payload(sourceHash: string, r: RenderRequest): string {
    sourceHash + ":" + NormalizedJson(r)
  }

  /** The cache key, for the digest that is used. */
  function RequestKey(digest: string -> string, sourceHash: string, r: RenderRequest): string {
    digest(Payload(sourceHash, r))
  }

  /** Every object's keys ascend, as `sort_keys=True` leaves them. */
  predicate KeysAscend(v: Json) {
    v.Object? ==> FieldsAscend(v.fields)
  }

  predicate FieldsAscend(f: Fields) {
    f.Field? ==> KeysAscend(f.value) && FieldsAscend(f.tail) && (f.tail.Field? ==> Precedes(f.key, f.tail.key))
  }

  // ---- The fields can be read back ----

  /** Every field of the request is under its name, and nothing else is there. */
  lemma RequestReads(r: RenderRequest)
    ensures var f := RequestFields(r);
            && f.key == "background" && f.value == BackgroundJson(r.background)
            && f.tail.key == "output" && f.tail.value == OutputJson(r.output)
            && f.tail.tail.key == "pipeline_version" && f.tail.tail.value == Text(r.pipelineVersion)
            && f.tail.tail.tail.key == "preprocess" && f.tail.tail.tail.value == PreprocessJson(r.preprocess)
            && f.tail.tail.tail.tail.key == "shadow" && f.tail.tail.tail.tail.value == ShadowJson(r.shadow)
            && f.tail.tail.tail.tail.tail == Field("source_asset_id", Text(r.sourceAssetId), Nil)
  {
    hide BackgroundJson, OutputJson, PreprocessJson, ShadowJson;
  }

  lemma SettingsRead(b: BackgroundSpec, o: OutputSpec, p: PreprocessSpec, s: ShadowSettings)
    ensures var f := BackgroundJson(b).fields;
            && f.key == "color_hex" && f.value == Text(b.colorHex) && f.tail.key == "mode" && f.tail.tail == Nil
            && f.tail.value == Text(match b.mode case Solid => "solid" case Transparent => "transparent")
    ensures PreprocessJson(p).fields == Field("padding_px", Number(Decimal(p.paddingPx)), Nil)
    ensures var f := OutputJson(o).fields;
            && f.key == "format" && f.value == Text(match o.format case Png => "png" case Jpeg => "jpeg")
            && f.tail.key == "height" && f.tail.tail.key == "return_debug" && f.tail.tail.value == Bool(o.returnDebug)
            && f.tail.tail.tail.key == "width" && f.tail.tail.tail.tail == Nil
            && (o.height == None ==> f.tail.value == Null) && (o.width == None ==> f.tail.tail.tail.value == Null)
            && (o.height.Some? ==> f.tail.value == Number(Decimal(o.height.value)))
            && (o.width.Some? ==> f.tail.tail.tail.value == Number(Decimal(o.width.value)))
    ensures var f := ShadowJson(s).fields;
            && f.key == "angle_deg" && f.value == Number(s.angleDeg)
            && f.tail.key == "elevation_deg" && f.tail.value == Number(s.elevationDeg)
            && f.tail.tail.key == "model"
            && f.tail.tail.value == Text(match s.model case V1Gan => "v1-gan" case V2Diff => "v2-diff")
            && f.tail.tail.tail == Field("opacity", Number(s.opacity), Field("reflection", Number(s.reflection),
                                         Field("softness", Number(s.softness), Nil)))
  {
    hide Decimal;
  }

  /** What is hashed: the hash, a colon, and the request without its source asset. */
  lemma PayloadReads(sourceHash: string, r: RenderRequest)
    ensures var fields := RequestFields(r.(sourceAssetId := "__normalized_source__"));
            Payload(sourceHash, r) == sourceHash + ":" + Print(Object(fields))
  {
  }

  lemma DecimalIsInjective(m: nat, n: nat)
    ensures Decimal(m) == Decimal(n) <==> m == n
  {
    DecimalRoundTrip(m);
    DecimalRoundTrip(n);
  }

  lemma OptionalIsInjective(m: Option<nat>, n: Option<nat>)
    ensures Optional(m) == Optional(n) <==> m == n
  {
    if m.Some? && n.Some? {
      DecimalIsInjective(m.value, n.value);
    }
  }

  lemma NamesAreInjective(m: ShadowModel, n: ShadowModel, b: BackgroundMode, c: BackgroundMode, f: OutputFormat,
                          g: OutputFormat)
    ensures ShadowModelName(m) == ShadowModelName(n) <==> m == n
    ensures BackgroundModeName(b) == BackgroundModeName(c) <==> b == c
    ensures OutputFormatName(f) == OutputFormatName(g) <==> f == g
  {
    assert "v1-gan"[1] != "v2-diff"[1] && "solid"[0] != "transparent"[0] && "png"[0] != "jpeg"[0];
  }

  lemma BackgroundIsDetermined(a: BackgroundSpec, b: BackgroundSpec)
    ensures BackgroundJson(a) == BackgroundJson(b) <==> a == b
  {
    NamesAreInjective(V1Gan, V1Gan, a.mode, b.mode, Png, Png);
    hide BackgroundModeName;
  }

  lemma OutputIsDetermined(a: OutputSpec, b: OutputSpec)
    ensures OutputJson(a) == OutputJson(b) <==> a == b
  {
    NamesAreInjective(V1Gan, V1Gan, Solid, Solid, a.format, b.format);
    OptionalIsInjective(a.width, b.width);
    OptionalIsInjective(a.height, b.height);
    hide Optional, OutputFormatName;
  }

  lemma PreprocessIsDetermined(a: PreprocessSpec, b: PreprocessSpec)
    ensures PreprocessJson(a) == PreprocessJson(b) <==> a == b
  {
    DecimalIsInjective(a.paddingPx, b.paddingPx);
    hide Decimal;
  }

  lemma ShadowIsDetermined(a: ShadowSettings, b: ShadowSettings)
    ensures ShadowJson(a) == ShadowJson(b) <==> a == b
  {
    NamesAreInjective(a.model, b.model, Solid, Solid, Png, Png);
    hide ShadowModelName;
  }

  lemma FieldsDetermineRequest(r: RenderRequest, q: RenderRequest)
    ensures RequestFields(r) == RequestFields(q) <==> r == q
  {
    BackgroundIsDetermined(r.background, q.background);
    OutputIsDetermined(r.output, q.output);
    PreprocessIsDetermined(r.preprocess, q.preprocess);
    ShadowIsDetermined(r.shadow, q.shadow);
    hide BackgroundJson, OutputJson, PreprocessJson, ShadowJson;
  }

  // ---- Where the JSON starts ----

  /** An object whose first key starts with the letter b opens at `i`. */
  predicate Opens(s: string, i: nat) {
    i + 2 < |s| && s[i] == '{' && s[i + 1] == '"' && s[i + 2] == 'b'
  }

  ghost predicate Clean(s: string) {
    forall i: nat :: !Opens(s, i)
  }

  predicate Calm(v: Json) {
    v.Object? ==> (v.fields.Field? ==> v.fields.key != [] && v.fields.key[0] != 'b') && CalmFields(v.fields)
  }

  predicate CalmFields(f: Fields) {
    f.Field? ==> Calm(f.value) && CalmFields(f.tail)
  }

  lemma PrependPlain(p: string, s: string)
    requires '{' !in p && Clean(s)
    ensures Clean(p + s)
  {
    forall i: nat ensures !Opens(p + s, i) {
      if i < |p| {
        assert (p + s)[i] in p;
      } else if i + 2 < |p + s| {
        assert !Opens(s, i - |p|);
      }
    }
  }

  lemma PrependBrace(s: string)
    requires Clean(s) && !(|s| >= 2 && s[0] == '"' && s[1] == 'b')
    ensures Clean(['{'] + s)
  {
    forall i: nat ensures !Opens(['{'] + s, i) {
      if i > 0 {
        assert !Opens(s, i - 1);
      }
    }
  }

  lemma UnitIsPlain(n: nat)
    requires n < 0x1_0000
    ensures '{' !in Unit(n) && |Unit(n)| == 6 && Unit(n)[0] == '\\'
  {
  }

  lemma EscapedCharIsPlain(c: char)
    requires c != '{'
    ensures '{' !in EscapeChar(c) && EscapeChar(c) != [] && EscapeChar(c)[0] != '"'
    ensures EscapeChar(c)[0] == 'b' ==> c == 'b'
  {
    if c as int >= 0x1_0000 {
      var n := c as int - 0x1_0000;
      UnitIsPlain(0xD800 + n / 0x400);
      UnitIsPlain(0xDC00 + n % 0x400);
    } else {
      UnitIsPlain(c as int);
    }
    hide Unit;
  }

  /** Quotes in an escaped string follow a backslash, so no brace stands before one, except at its end. */
  lemma {:induction false} EscapeIsClean(s: string, rest: string)
    requires Clean(rest) && rest != [] && rest[0] != 'b'
    ensures Clean(Escape(s) + (['"'] + rest))
    decreases |s|
  {
    var end := ['"'] + rest;
    if s == [] {
      PrependPlain(['"'], rest);
      assert Escape(s) + end == end;
    } else {
      var tail := Escape(s[1..]) + end;
      EscapeIsClean(s[1..], rest);
      assert Escape(s) + end == EscapeChar(s[0]) + tail;
      if s[0] == '{' {
        if s[1..] == [] {
          assert tail == end;
        } else {
          assert tail[0] == EscapeChar(s[1])[0];
          if s[1] != '{' { EscapedCharIsPlain(s[1]); }
        }
        PrependBrace(tail);
      } else {
        EscapedCharIsPlain(s[0]);
        PrependPlain(EscapeChar(s[0]), tail);
      }
    }
  }

  lemma QuoteIsClean(s: string, rest: string)
    requires Clean(rest) && rest != [] && rest[0] != 'b'
    ensures Clean(Quote(s) + rest)
  {
    EscapeIsClean(s, rest);
    var tail := Escape(s) + (['"'] + rest);
    PrependPlain(['"'], tail);
    assert Quote(s) + rest == ['"'] + tail;
  }

  lemma {:induction false} EmitIsClean(v: Json, rest: string)
    requires Calm(v) && Clean(rest) && rest != [] && Delimited(rest)
    ensures Clean(Emit(v, rest))
    decreases v
  {
    match v {
      case Null => PrependPlain("null", rest);
      case Bool(b) => PrependPlain(if b then "true" else "false", rest);
      case Number(token) =>
        forall c | c in token ensures c != '{' {
          assert IsNumeric(c);
        }
        PrependPlain(token, rest);
      case Text(s) => QuoteIsClean(s, rest);
      case Object(fields) =>
        PrependPlain(['}'], rest);
        EmitFieldsIsClean(fields, ['}'] + rest);
        if fields.Field? {
          FirstKeyShows(fields, ['}'] + rest);
        }
        PrependBrace(EmitFields(fields, ['}'] + rest));
    }
  }

  lemma FirstKeyShows(f: Fields, rest: string)
    requires f.Field? && f.key != []
    ensures |EmitFields(f, rest)| >= 2 && (EmitFields(f, rest)[1] == 'b' ==> f.key[0] == 'b')
  {
    assert EmitFields(f, rest)[1] == EscapeChar(f.key[0])[0];
    if f.key[0] != '{' { EscapedCharIsPlain(f.key[0]); }
  }

  lemma {:induction false} EmitFieldsIsClean(f: Fields, rest: string)
    requires CalmFields(f) && Clean(rest) && rest != [] && rest[0] == '}'
    ensures Clean(EmitFields(f, rest))
    decreases f
  {
    if f.Field? {
      var after := AfterField(f.tail, rest);
      if f.tail.Field? {
        EmitFieldsIsClean(f.tail, rest);
        PrependPlain([','], EmitFields(f.tail, rest));
      }
      EmitIsClean(f.value, after);
      PrependPlain([':'], Emit(f.value, after));
      QuoteIsClean(f.key, [':'] + Emit(f.value, after));
    }
  }

  // ---- The canonical form ----

  ghost predicate Canonical(f: Fields) {
    CalmFields(f) && FieldsAscend(f)
  }

  ghost predicate CanonicalValue(v: Json) {
    Calm(v) && KeysAscend(v)
  }

  lemma EndIsCanonical()
    ensures Canonical(Nil)
  {
  }

  lemma FieldIsCanonical(key: string, value: Json, tail: Fields)
    requires CanonicalValue(value) && Canonical(tail) && (tail.Field? ==> Precedes(key, tail.key))
    ensures Canonical(Field(key, value, tail))
  {
  }

  lemma ObjectIsCanonical(f: Fields)
    requires Canonical(f) && (f.Field? ==> f.key != [] && f.key[0] != 'b')
    ensures CanonicalValue(Object(f))
  {
  }

  lemma LeafIsCanonical(v: Json)
    ensures !v.Object? ==> CanonicalValue(v)
  {
  }

  lemma BackgroundIsCanonical(b: BackgroundSpec)
    ensures CanonicalValue(BackgroundJson(b))
  {
    hide Canonical, CanonicalValue;
    forall v: Json ensures !v.Object? ==> CanonicalValue(v) { LeafIsCanonical(v); }
    EndIsCanonical();
    var mode := Field("mode", Text(BackgroundModeName(b.mode)), Nil);
    FieldIsCanonical(mode.key, mode.value, mode.tail);
    var colorHex := Field("color_hex", Text(b.colorHex), mode);
    FieldIsCanonical(colorHex.key, colorHex.value, mode);
    ObjectIsCanonical(colorHex);
  }

  lemma OutputIsCanonical(o: OutputSpec)
    ensures CanonicalValue(OutputJson(o))
  {
    hide Canonical, CanonicalValue;
    forall v: Json ensures !v.Object? ==> CanonicalValue(v) { LeafIsCanonical(v); }
    EndIsCanonical();
    var width := Field("width", Optional(o.width), Nil);
    FieldIsCanonical(width.key, width.value, Nil);
    var returnDebug := Field("return_debug", Bool(o.returnDebug), width);
    FieldIsCanonical(returnDebug.key, returnDebug.value, width);
    var height := Field("height", Optional(o.height), returnDebug);
    FieldIsCanonical(height.key, height.value, returnDebug);
    var format := Field("format", Text(OutputFormatName(o.format)), height);
    FieldIsCanonical(format.key, format.value, height);
    ObjectIsCanonical(format);
  }

  lemma PreprocessIsCanonical(p: PreprocessSpec)
    ensures CanonicalValue(PreprocessJson(p))
  {
    hide Canonical, CanonicalValue;
    EndIsCanonical();
    LeafIsCanonical(Number(Decimal(p.paddingPx)));
    FieldIsCanonical("padding_px", Number(Decimal(p.paddingPx)), Nil);
    ObjectIsCanonical(Field("padding_px", Number(Decimal(p.paddingPx)), Nil));
  }

  lemma ShadowIsCanonical(s: ShadowSettings)
    ensures CanonicalValue(ShadowJson(s))
  {
    hide Canonical, CanonicalValue;
    forall v: Json ensures !v.Object? ==> CanonicalValue(v) { LeafIsCanonical(v); }
    EndIsCanonical();
    var softness := Field("softness", Number(s.softness), Nil);
    FieldIsCanonical(softness.key, softness.value, Nil);
    var reflection := Field("reflection", Number(s.reflection), softness);
    FieldIsCanonical(reflection.key, reflection.value, softness);
    var opacity := Field("opacity", Number(s.opacity), reflection);
    FieldIsCanonical(opacity.key, opacity.value, reflection);
    var model := Field("model", Text(ShadowModelName(s.model)), opacity);
    FieldIsCanonical(model.key, model.value, opacity);
    var elevationDeg := Field("elevation_deg", Number(s.elevationDeg), model);
    FieldIsCanonical(elevationDeg.key, elevationDeg.value, model);
    var angleDeg := Field("angle_deg", Number(s.angleDeg), elevationDeg);
    FieldIsCanonical(angleDeg.key, angleDeg.value, elevationDeg);
    ObjectIsCanonical(angleDeg);
  }

  lemma RequestKeysAscend()
    ensures Precedes("background", "output") && Precedes("output", "pipeline_version")
    ensures Precedes("pipeline_version", "preprocess") && Precedes("preprocess", "shadow")
    ensures Precedes("shadow", "source_asset_id")
  {
    SecondLetterDecides("pipeline_version", "preprocess");
    SecondLetterDecides("shadow", "source_asset_id");
  }

  lemma SecondLetterDecides(p: string, q: string)
    requires |p| >= 2 && |q| >= 2 && p[0] == q[0] && p[1] < q[1]
    ensures Precedes(p, q)
  {
    assert p[1..][0] == p[1] && q[1..][0] == q[1];
  }

  /** The keys of the request ascend at every level, and only the whole request starts with a b. */
  lemma RequestIsCanonical(r: RenderRequest)
    ensures Canonical(RequestFields(r))
  {
    BackgroundIsCanonical(r.background);
    OutputIsCanonical(r.output);
    PreprocessIsCanonical(r.preprocess);
    ShadowIsCanonical(r.shadow);
    LeafIsCanonical(Text(r.pipelineVersion));
    LeafIsCanonical(Text(r.sourceAssetId));
    EndIsCanonical();
    RequestKeysAscend();
    hide Precedes, Canonical, CanonicalValue, BackgroundJson, OutputJson, PreprocessJson, ShadowJson;
    var source := Field("source_asset_id", Text(r.sourceAssetId), Nil);
    FieldIsCanonical(source.key, source.value, Nil);
    var shadow := Field("shadow", ShadowJson(r.shadow), source);
    FieldIsCanonical(shadow.key, shadow.value, source);
    var preprocess := Field("preprocess", PreprocessJson(r.preprocess), shadow);
    FieldIsCanonical(preprocess.key, preprocess.value, shadow);
    var version := Field("pipeline_version", Text(r.pipelineVersion), preprocess);
    FieldIsCanonical(version.key, version.value, preprocess);
    var output := Field("output", OutputJson(r.output), version);
    FieldIsCanonical(output.key, output.value, version);
    FieldIsCanonical("background", BackgroundJson(r.background), output);
  }

  lemma ObjectOpensOnce(f: Fields, i: nat)
    requires f.Field? && f.key == "background" && CalmFields(f)
    ensures Opens(Print(Object(f)), i) <==> i == 0
  {
    var tail := EmitFields(f, ['}']);
    EmitFieldsIsClean(f, ['}']);
    EmitIsPrint(Object(f), []);
    assert ['}'] + [] == ['}'];
    assert Print(Object(f)) == Print(Object(f)) + [];
    assert Print(Object(f)) == ['{'] + tail;
    StartsWithKey(f, ['}']);
    if i > 0 {
      assert !Opens(tail, i - 1);
    }
  }

  lemma StartsWithKey(f: Fields, rest: string)
    requires f.Field? && f.key == "background"
    ensures |EmitFields(f, rest)| >= 2 && EmitFields(f, rest)[0] == '"' && EmitFields(f, rest)[1] == 'b'
  {
    assert f.key[0] == 'b' && EscapeChar('b') == ['b'];
    assert Escape(f.key)[0] == 'b';
  }

  /** The JSON opens with the key "background", and nothing inside it looks like that. */
  lemma JsonOpensOnce(r: RenderRequest, i: nat)
    ensures Opens(NormalizedJson(r), i) <==> i == 0
  {
    var fields := RequestFields(r.(sourceAssetId := NORMALIZED_SOURCE));
    RequestIsCanonical(r.(sourceAssetId := NORMALIZED_SOURCE));
    ObjectOpensOnce(fields, i);
  }

  lemma Align(g: string, h: string, a: string, b: string, i: nat)
    requires g + ":" + a == h + ":" + b && |g| < |h| && i < |b|
    ensures |h| - |g| + i < |a| && a[|h| - |g| + i] == b[i]
  {
    assert (g + ":" + a)[|h| + 1 + i] == a[|h| - |g| + i];
    assert (h + ":" + b)[|h| + 1 + i] == b[i];
  }

  lemma ShorterHashReopens(g: string, h: string, a: string, b: string)
    requires g + ":" + a == h + ":" + b && Opens(b, 0) && |g| < |h|
    ensures Opens(a, |h| - |g|)
  {
    Align(g, h, a, b, 0);
    Align(g, h, a, b, 1);
    Align(g, h, a, b, 2);
  }

  /** So the colon between hash and JSON can be found, whatever the hash contains. */
  lemma HashIsNotLonger(g: string, h: string, a: string, b: string)
    requires g + ":" + a == h + ":" + b && Opens(b, 0)
    requires forall i: nat :: i > 0 ==> !Opens(a, i)
    ensures |g| >= |h|
  {
    if |g| < |h| {
      ShorterHashReopens(g, h, a, b);
    }
  }

  lemma SplitText(g: string, h: string, a: string, b: string)
    requires g + ":" + a == h + ":" + b && |g| == |h|
    ensures g == h && a == b
  {
    assert g == (g + ":" + a)[..|g|] && h == (h + ":" + b)[..|h|];
    assert a == (g + ":" + a)[|g| + 1..] && b == (h + ":" + b)[|h| + 1..];
  }

  /**
   Two payloads are equal exactly when the source hashes are equal and the requests agree
   on every field except the source asset id.
   */
  lemma PayloadIsInjective(g: string, h: string, q: RenderRequest, r: RenderRequest)
    ensures Payload(g, q) == Payload(h, r) <==>
            g == h && q == r.(sourceAssetId := q.sourceAssetId)
  {
    var q', r' := q.(sourceAssetId := NORMALIZED_SOURCE), r.(sourceAssetId := NORMALIZED_SOURCE);
    assert q' == r' <==> q == r.(sourceAssetId := q.sourceAssetId);
    if Payload(g, q) == Payload(h, r) {
      forall i: nat ensures Opens(NormalizedJson(q), i) <==> i == 0 { JsonOpensOnce(q, i); }
      forall i: nat ensures Opens(NormalizedJson(r), i) <==> i == 0 { JsonOpensOnce(r, i); }
      HashIsNotLonger(g, h, NormalizedJson(q), NormalizedJson(r));
      HashIsNotLonger(h, g, NormalizedJson(r), NormalizedJson(q));
      SplitText(g, h, NormalizedJson(q), NormalizedJson(r));
      PrintIsInjective(Object(RequestFields(q')), Object(RequestFields(r')));
      FieldsDetermineRequest(q', r');
    }
  }

  /**
   Requests share a key exactly when they have the same image and parameters, unless the
   digest maps two different payloads to one value.
   */
  lemma KeysAreSharedIff(digest: string -> string, g: string, h: string, q: RenderRequest, r: RenderRequest)
    requires digest(Payload(g, q)) == digest(Payload(h, r)) ==> Payload(g, q) == Payload(h, r)
    ensures RequestKey(digest, g, q) == RequestKey(digest, h, r) <==>
            g == h && q == r.(sourceAssetId := q.sourceAssetId)
  {
    PayloadIsInjective(g, h, q, r);
    hide Payload;
  }
}
