/**
 * The deck planning done by `generar_pptx` (app/ppt_generator.py): validate the
 * JSON body, collect chart URLs, then add a global summary slide, one slide per
 * media channel in a fixed order and one chart slide per collected URL.
 *
 * Slides are abstract records in place of python-pptx objects. A line of slide
 * text is a list of segments: fixed label text, and JSON values shown as they are.
 * `Plan` is the whole transformation as a function; `GenerarPptx` builds the
 * same deck step by step, the way the Python code does, and is proved equal to it.
 */
module PptGenerator {
  import opened PyJson

  /** One piece of a text line: fixed label text, or an input value shown verbatim. */
  datatype Seg = Lit(text: string) | Val(value: Json)

  /** One paragraph of a slide's text box. */
  type Line = seq<Seg>

  datatype Slide =
    | Summary(title: string, body: seq<Line>)
    | Channel(name: string, body: seq<Line>)
    | Chart(url: Json, hasPicture: bool)

  /** What `download_image(url)` gives back: `None` (a request error or a status other
      than 200), the path of a file holding an image, or the path of a file whose
      bytes are not an image, which `add_picture` then refuses. */
  datatype Download = NoFile | Picture | Unreadable

  /** The planned presentation and the path it is saved to. */
  datatype Deck = Deck(slides: seq<Slide>, path: string)

  const NotNonEmptyListMsg := "Input data must be a non-empty list."
  const FirstNotDictMsg := "First item in data must be a dictionary."
  const EmptySummaryMsg := "Data list is empty for global summary."

  const SummaryTitle := "Resumen Global"

  /** The media channels, in the order their slides are added. */
  const Medios: seq<string> := ["TV", "Radio", "Prensa", "Medios Digitales"]

  /** The global-summary keys, in the order the summary text reads them. */
  const SummaryKeys: seq<string> :=
    ["fechaInicial", "fechaFinal", "totalGlobalNoticias", "totalGlobalAudiencia",
     "totalGlobalVPE", "totalGlobalVC"]

  /** The per-channel counter keys, in the order the channel text reads them. */
  const CounterKeys: seq<string> :=
    ["cantidad_noticias", "total_audiencia", "total_vpe", "total_vc"]

  /** The global summary (element 0) and the chart references (elements 1..n). */
  datatype Input = Input(datos: map<string, Json>, rest: seq<Json>)

  /** The input checks: a non-empty list whose first element is a dict. */
  function Validate(data: Json): Result<Input> {
    if !data.JArr? || data.items == [] then Err(ValueError(NotNonEmptyListMsg))
    else if !data.items[0].JObj? then Err(ValueError(FirstNotDictMsg))
    else Ok(Input(data.items[0].fields, data.items[1..]))
  }

  /** An image item: a dict that has a "url" key. */
  predicate HasUrl(d: Json) {
    d.JObj? && "url" in d.fields
  }

  /** The chart URLs: the "url" value of each image item, in order. */
  function UrlsOf(items: seq<Json>): seq<Json> {
    if items == [] then []
    else (if HasUrl(items[0]) then [items[0].fields["url"]] else []) + UrlsOf(items[1..])
  }

  function Lookup(m: map<string, Json>, key: string): Result<Json> {
    if key in m then Ok(m[key]) else Err(KeyError(key))
  }

  /** The four paragraphs of the "Resumen Global" slide. */
  function SummaryBody(datos: map<string, Json>): Result<seq<Line>> {
    var inicio :- Lookup(datos, "fechaInicial");
    var fin :- Lookup(datos, "fechaFinal");
    var noticias :- Lookup(datos, "totalGlobalNoticias");
    var audiencia :- Lookup(datos, "totalGlobalAudiencia");
    var vpe :- Lookup(datos, "totalGlobalVPE");
    var vc :- Lookup(datos, "totalGlobalVC");
    Ok([[Lit("Período: "), Val(inicio), Lit(" al "), Val(fin)],
        [Lit("Noticias totales: "), Val(noticias)],
        [Lit("Audiencia total: "), Val(audiencia)],
        [Lit("VPE Total: "), Val(vpe), Lit(" | VC Total: "), Val(vc)]])
  }

  /** The three counter paragraphs of a channel slide. */
  function CounterLines(medioData: Json): Result<seq<Line>> {
    var cantidad :- Index(medioData, "cantidad_noticias");
    var audiencia :- Index(medioData, "total_audiencia");
    var vpe :- Index(medioData, "total_vpe");
    var vc :- Index(medioData, "total_vc");
    Ok([[Lit("Noticias: "), Val(cantidad)],
        [Lit("Audiencia: "), Val(audiencia)],
        [Lit("VPE: "), Val(vpe), Lit(" | VC: "), Val(vc)]])
  }

  /** The paragraph `- fecha: titulo` for one story. */
  function StoryLine(noticia: Json): Result<Line> {
    var fecha :- Index(noticia, "fecha");
    var titulo :- Index(noticia, "titulo");
    Ok([Lit("- "), Val(fecha), Lit(": "), Val(titulo)])
  }

  /** The story paragraphs, one per story, stopping at the first failing story. */
  function StoryLines(noticias: seq<Json>): Result<seq<Line>> {
    if noticias == [] then Ok([])
    else
      var line :- StoryLine(noticias[0]);
      var lines :- StoryLines(noticias[1..]);
      Ok([line] + lines)
  }

  /** `medio_data.get("noticias", [])`; only used once `medioData` is known to be a dict. */
  function NoticiasOf(medioData: Json): Json {
    if medioData.JObj? then DictGet(medioData.fields, "noticias", JArr([])) else JArr([])
  }

  /** The text of one channel slide: the counters, then one paragraph per story. */
  function ChannelBody(medioData: Json): Result<seq<Line>> {
    var counters :- CounterLines(medioData);
    var noticias :- Iter(NoticiasOf(medioData));
    var stories :- StoryLines(noticias);
    Ok(counters + stories)
  }

  /** `datos.get(medio + "_raw")`: `None` when the key is absent. */
  function RawOf(datos: map<string, Json>, medio: string): Json {
    DictGet(datos, medio + "_raw", JNull)
  }

  /** The slides one channel contributes: none when its data is falsy, else one. */
  function ChannelSlide(datos: map<string, Json>, medio: string): Result<seq<Slide>> {
    var medioData := RawOf(datos, medio);
    if !Truthy(medioData) then Ok([])
    else
      var body :- ChannelBody(medioData);
      Ok([Channel(medio, body)])
  }

  /** The channel slides for `medios`, in that order, stopping at the first failure. */
  function ChannelSlides(datos: map<string, Json>, medios: seq<string>): Result<seq<Slide>> {
    if medios == [] then Ok([])
    else
      var first :- ChannelSlide(datos, medios[0]);
      var rest :- ChannelSlides(datos, medios[1..]);
      Ok(first + rest)
  }

  /** One chart slide per URL, with a picture when the download gave an image file;
      a downloaded file that is not an image aborts the deck. */
  function ChartSlides(urls: seq<Json>, fetch: Json -> Download): Result<seq<Slide>> {
    if urls == [] then Ok([])
    else if fetch(urls[0]) == Unreadable then Err(UnidentifiedImageError)
    else
      var rest :- ChartSlides(urls[1..], fetch);
      Ok([Chart(urls[0], fetch(urls[0]) == Picture)] + rest)
  }

  /** The deck `generar_pptx(data, filename)` saves, or the exception it raises. */
  function Plan(data: Json, filename: string, fetch: Json -> Download): Result<Deck> {
    var input :- Validate(data);
    var imagenes := UrlsOf(input.rest);
    var summary :- SummaryBody(input.datos);
    var channels :- ChannelSlides(input.datos, Medios);
    var charts :- ChartSlides(imagenes, fetch);
    Ok(Deck([Summary(SummaryTitle, summary)] + channels + charts, "/tmp/" + filename))
  }

  /** Prefixes the slides or lines already built to a result still to come. */
  function Then<T>(done: seq<T>, later: Result<seq<T>>): Result<seq<T>> {
    match later
    case Ok(s) => Ok(done + s)
    case Err(e) => Err(e)
  }

  /** Prefixing in two steps is prefixing by the concatenation. */
  lemma ThenThen<T>(a: seq<T>, b: seq<T>, later: Result<seq<T>>)
    ensures Then(a, Then(b, later)) == Then(a + b, later)
  {
    if later.Ok? {
      assert a + (b + later.value) == (a + b) + later.value;
    }
  }

  /** The loop over `data[1:]` that appends each image item's URL to `imagenes`. */
  method CollectImageUrls(items: seq<Json>) returns (imagenes: seq<Json>)
    ensures imagenes == UrlsOf(items)
  {
    imagenes := [];
    for i := 0 to |items|
      invariant imagenes + UrlsOf(items[i..]) == UrlsOf(items)
    {
      assert items[i..][1..] == items[i + 1..];
      var d := items[i];
      if d.JObj? && "url" in d.fields {
        imagenes := imagenes + [d.fields["url"]];
      }
    }
    assert items[|items|..] == [];
  }

  /** The text of a channel slide: the counters, then one paragraph added per story. */
  method BuildChannelBody(medioData: Json) returns (r: Result<seq<Line>>)
    ensures r == ChannelBody(medioData)
  {
    var counters :- CounterLines(medioData);
    var noticias :- Iter(NoticiasOf(medioData));
    var lines := counters;
    for k := 0 to |noticias|
      invariant Then(lines, StoryLines(noticias[k..])) == ChannelBody(medioData)
    {
      assert noticias[k..][1..] == noticias[k + 1..];
      var line :- StoryLine(noticias[k]);
      ThenThen(lines, [line], StoryLines(noticias[k + 1..]));
      lines := lines + [line];
    }
    assert noticias[|noticias|..] == [] && lines + [] == lines;
    return Ok(lines);
  }

  /** The loop over the channels: appends to `slides` one slide per channel with truthy data. */
  method AddChannelSlides(slides: seq<Slide>, datos: map<string, Json>) returns (r: Result<seq<Slide>>)
    ensures r == Then(slides, ChannelSlides(datos, Medios))
  {
    var deck := slides;
    for c := 0 to |Medios|
      invariant Then(deck, ChannelSlides(datos, Medios[c..])) == Then(slides, ChannelSlides(datos, Medios))
    {
      assert Medios[c..][1..] == Medios[c + 1..];
      var medio := Medios[c];
      var medioData := RawOf(datos, medio);
      if Truthy(medioData) {
        var body :- BuildChannelBody(medioData);
        ThenThen(deck, [Channel(medio, body)], ChannelSlides(datos, Medios[c + 1..]));
        deck := deck + [Channel(medio, body)];
      } else {
        ThenThen(deck, [], ChannelSlides(datos, Medios[c + 1..]));
        assert deck + [] == deck;
      }
    }
    assert Medios[|Medios|..] == [];
    return Ok(deck);
  }

  /** The loop over the image URLs: appends one chart slide per URL, downloading each. */
  method AddChartSlides(slides: seq<Slide>, imagenes: seq<Json>, fetch: Json -> Download)
    returns (r: Result<seq<Slide>>)
    ensures r == Then(slides, ChartSlides(imagenes, fetch))
  {
    var deck := slides;
    for j := 0 to |imagenes|
      invariant Then(deck, ChartSlides(imagenes[j..], fetch)) == Then(slides, ChartSlides(imagenes, fetch))
    {
      assert imagenes[j..][1..] == imagenes[j + 1..];
      var imgPath := fetch(imagenes[j]);
      if imgPath == Unreadable {
        return Err(UnidentifiedImageError);
      }
      ThenThen(deck, [Chart(imagenes[j], imgPath == Picture)], ChartSlides(imagenes[j + 1..], fetch));
      deck := deck + [Chart(imagenes[j], imgPath == Picture)];
    }
    assert imagenes[|imagenes|..] == [] && deck + [] == deck;
    return Ok(deck);
  }

  /** `generar_pptx(data, filename)`: the checks, the URL collection, then the slides in order. */
  method GenerarPptx(data: Json, filename: string, fetch: Json -> Download) returns (r: Result<Deck>)
    ensures r == Plan(data, filename, fetch)
  {
    if !data.JArr? || |data.items| == 0 {
      return Err(ValueError(NotNonEmptyListMsg));
    }
    var datos := data.items[0];
    if !datos.JObj? {
      return Err(ValueError(FirstNotDictMsg));
    }
    var imagenes := CollectImageUrls(data.items[1..]);
    var cuerpo :- SummaryBody(datos.fields);
    var slides :- AddChannelSlides([Summary(SummaryTitle, cuerpo)], datos.fields);
    slides :- AddChartSlides(slides, imagenes, fetch);
    var outputPath := "/tmp/" + filename;
    return Ok(Deck(slides, outputPath));
  }
}
