/**
 * What `generar_pptx` promises about the deck it plans: which inputs it rejects
 * and with which exception, which chart URLs it keeps, what the summary and
 * channel slides say, the order and number of the slides, and that a download
 * decides only whether its chart slide has a picture, or, when the file is not an
 * image, that the deck is not built at all.
 */
module PptProperties {
  import opened PyJson
  import opened PptGenerator

  /** The exceptions a lookup `d[key]` can raise. */
  predicate LookupError(e: PyError) {
    e.KeyError? || e.TypeError?
  }

  /** A story entry that can be shown: a dict with "fecha" and "titulo". */
  predicate IsStory(noticia: Json) {
    noticia.JObj? && "fecha" in noticia.fields && "titulo" in noticia.fields
  }

  /** The channels of `medios` whose `<name>_raw` entry is truthy, in order. */
  function Present(datos: map<string, Json>, medios: seq<string>): seq<string> {
    if medios == [] then []
    else (if Truthy(RawOf(datos, medios[0])) then [medios[0]] else []) + Present(datos, medios[1..])
  }

  /** A channel's data that gives a text: a dict with the four counters whose
      `noticias` iterates to entries that are all stories. */
  predicate Showable(medioData: Json) {
    && medioData.JObj?
    && (forall key :: key in CounterKeys ==> key in medioData.fields)
    && Iter(NoticiasOf(medioData)).Ok?
    && forall i :: 0 <= i < |Iter(NoticiasOf(medioData)).value| ==> IsStory(Iter(NoticiasOf(medioData)).value[i])
  }

  // ---------------------------------------------------------------------------
  // Input validation
  // ---------------------------------------------------------------------------

  lemma SummaryBodyFails(datos: map<string, Json>)
    ensures SummaryBody(datos).Err? ==> LookupError(SummaryBody(datos).error)
  {
  }

  lemma {:induction false} StoryLinesFail(noticias: seq<Json>)
    ensures StoryLines(noticias).Err? ==> LookupError(StoryLines(noticias).error)
  {
    if noticias != [] {
      StoryLinesFail(noticias[1..]);
    }
  }

  lemma {:induction false} ChannelSlidesFail(datos: map<string, Json>, medios: seq<string>)
    ensures ChannelSlides(datos, medios).Err? ==> LookupError(ChannelSlides(datos, medios).error)
  {
    if medios != [] {
      var medioData := RawOf(datos, medios[0]);
      if Truthy(medioData) && CounterLines(medioData).Ok? && Iter(NoticiasOf(medioData)).Ok? {
        StoryLinesFail(Iter(NoticiasOf(medioData)).value);
      }
      ChannelSlidesFail(datos, medios[1..]);
    }
  }

  /** Past validation, every failure is a `KeyError` or `TypeError` from a lookup,
      or the `UnidentifiedImageError` of a downloaded file that is not an image. */
  lemma LaterFailureKinds(data: Json, filename: string, fetch: Json -> Download)
    requires Validate(data).Ok?
    ensures Plan(data, filename, fetch).Err? ==>
              LookupError(Plan(data, filename, fetch).error)
              || Plan(data, filename, fetch).error == UnidentifiedImageError
  {
    SummaryBodyFails(data.items[0].fields);
    ChannelSlidesFail(data.items[0].fields, Medios);
    ChartSlidesSpec(UrlsOf(data.items[1..]), fetch);
  }

  /** Exactly the inputs that are not a non-empty list fail with the first `ValueError`. */
  lemma RejectsNonList(data: Json, filename: string, fetch: Json -> Download)
    ensures Plan(data, filename, fetch) == Err(ValueError(NotNonEmptyListMsg))
        <==> !data.JArr? || data.items == []
  {
    if Validate(data).Ok? {
      LaterFailureKinds(data, filename, fetch);
    }
  }

  /** Exactly the non-empty lists whose first element is not a dict fail with the second `ValueError`. */
  lemma RejectsNonDictFirst(data: Json, filename: string, fetch: Json -> Download)
    ensures Plan(data, filename, fetch) == Err(ValueError(FirstNotDictMsg))
        <==> data.JArr? && data.items != [] && !data.items[0].JObj?
  {
    if Validate(data).Ok? {
      LaterFailureKinds(data, filename, fetch);
    }
  }

  /** The `IndexError` handler is dead code. The length check before `data[0]` makes
      the index in range, and `GenerarPptx` reads `data.items[0]` only after that check,
      with its index proved in range; so the handler's message is never the result. */
  lemma NeverEmptySummaryError(data: Json, filename: string, fetch: Json -> Download)
    ensures Plan(data, filename, fetch) != Err(ValueError(EmptySummaryMsg))
  {
    if Validate(data).Ok? {
      LaterFailureKinds(data, filename, fetch);
    }
  }

  // ---------------------------------------------------------------------------
  // Chart URL collection
  // ---------------------------------------------------------------------------

  /** `urls` lists, in order, the "url" values at the increasing positions `idx`,
      and `idx` holds every position of an image item. */
  ghost predicate SelectsUrls(items: seq<Json>, idx: seq<nat>, urls: seq<Json>) {
    && |idx| == |urls|
    && (forall k :: 0 <= k < |idx| ==>
          idx[k] < |items| && HasUrl(items[idx[k]]) && urls[k] == items[idx[k]].fields["url"])
    && (forall k, l :: 0 <= k < l < |idx| ==> idx[k] < idx[l])
    && (forall i :: 0 <= i < |items| && HasUrl(items[i]) ==> i in idx)
  }

  function Shift(idx: seq<nat>): seq<nat> {
    seq(|idx|, k requires 0 <= k < |idx| => idx[k] + 1)
  }

  /** The positions of the image items, in order. */
  ghost function UrlIndices(items: seq<Json>): seq<nat> {
    if items == [] then []
    else (if HasUrl(items[0]) then [0] else []) + Shift(UrlIndices(items[1..]))
  }

  lemma {:induction false} UrlIndicesPick(items: seq<Json>)
    ensures |UrlIndices(items)| == |UrlsOf(items)|
    ensures forall k :: 0 <= k < |UrlIndices(items)| ==>
              UrlIndices(items)[k] < |items| && HasUrl(items[UrlIndices(items)[k]])
              && UrlsOf(items)[k] == items[UrlIndices(items)[k]].fields["url"]
  {
    if items != [] {
      var tail := items[1..];
      UrlIndicesPick(tail);
      var idx, urls := UrlIndices(items), UrlsOf(items);
      var off := if HasUrl(items[0]) then 1 else 0;
      forall k | off <= k < |idx|
        ensures idx[k] < |items| && HasUrl(items[idx[k]]) && urls[k] == items[idx[k]].fields["url"]
      {
        assert idx[k] == UrlIndices(tail)[k - off] + 1;
        assert urls[k] == UrlsOf(tail)[k - off];
        assert items[idx[k]] == tail[UrlIndices(tail)[k - off]];
      }
    }
  }

  lemma {:induction false} UrlIndicesIncreasing(items: seq<Json>)
    ensures forall k, l :: 0 <= k < l < |UrlIndices(items)| ==> UrlIndices(items)[k] < UrlIndices(items)[l]
  {
    if items != [] {
      UrlIndicesIncreasing(items[1..]);
    }
  }

  lemma {:induction false} UrlIndicesCover(items: seq<Json>)
    ensures forall i :: 0 <= i < |items| && HasUrl(items[i]) ==> i in UrlIndices(items)
  {
    if items != [] {
      var tail := items[1..];
      UrlIndicesCover(tail);
      var idx := UrlIndices(items);
      var off := if HasUrl(items[0]) then 1 else 0;
      forall i | 1 <= i < |items| && HasUrl(items[i])
        ensures i in idx
      {
        assert tail[i - 1] == items[i];
        var k :| 0 <= k < |UrlIndices(tail)| && UrlIndices(tail)[k] == i - 1;
        assert idx[k + off] == i;
      }
    }
  }

  /** The collected URLs are exactly the "url" values of the image items, in input order;
      every other element is passed over. */
  lemma UrlsOfSelects(items: seq<Json>)
    ensures exists idx :: SelectsUrls(items, idx, UrlsOf(items))
  {
    UrlIndicesPick(items);
    UrlIndicesIncreasing(items);
    UrlIndicesCover(items);
    assert SelectsUrls(items, UrlIndices(items), UrlsOf(items));
  }

  // ---------------------------------------------------------------------------
  // Summary slide
  // ---------------------------------------------------------------------------

  /** A successful deck opens with "Resumen Global": four paragraphs showing the
      period and the four global totals exactly as given. */
  lemma SummarySlideFirst(data: Json, filename: string, fetch: Json -> Download)
    requires Plan(data, filename, fetch).Ok?
    ensures data.JArr? && data.items != [] && data.items[0].JObj?
    ensures forall key :: key in SummaryKeys ==> key in data.items[0].fields
    ensures var d := data.items[0].fields;
            var slides := Plan(data, filename, fetch).value.slides;
            && |slides| > 0
            && slides[0].Summary?
            && slides[0].title == "Resumen Global"
            && slides[0].body
               == [[Lit("Período: "), Val(d["fechaInicial"]), Lit(" al "), Val(d["fechaFinal"])],
                   [Lit("Noticias totales: "), Val(d["totalGlobalNoticias"])],
                   [Lit("Audiencia total: "), Val(d["totalGlobalAudiencia"])],
                   [Lit("VPE Total: "), Val(d["totalGlobalVPE"]), Lit(" | VC Total: "), Val(d["totalGlobalVC"])]]
  {
  }

  /** The first summary key that is missing raises `KeyError` for that key; no default is used. */
  lemma SummaryMissingKey(data: Json, filename: string, fetch: Json -> Download, i: nat)
    requires data.JArr? && data.items != [] && data.items[0].JObj?
    requires i < |SummaryKeys| && SummaryKeys[i] !in data.items[0].fields
    requires forall j :: 0 <= j < i ==> SummaryKeys[j] in data.items[0].fields
    ensures Plan(data, filename, fetch) == Err(KeyError(SummaryKeys[i]))
  {
    var d := data.items[0].fields;
    if i == 0 {
    } else if i == 1 {
      assert SummaryKeys[0] in d;
    } else if i == 2 {
      assert SummaryKeys[0] in d && SummaryKeys[1] in d;
    } else if i == 3 {
      assert SummaryKeys[0] in d && SummaryKeys[1] in d && SummaryKeys[2] in d;
    } else if i == 4 {
      assert SummaryKeys[0] in d && SummaryKeys[1] in d && SummaryKeys[2] in d && SummaryKeys[3] in d;
    } else {
      assert SummaryKeys[0] in d && SummaryKeys[1] in d && SummaryKeys[2] in d && SummaryKeys[3] in d;
      assert SummaryKeys[4] in d;
    }
  }

  // ---------------------------------------------------------------------------
  // Channel slides
  // ---------------------------------------------------------------------------

  /** Each story gives one paragraph `- fecha: titulo`, in order; the texts
      succeed exactly when every entry is a dict with both keys. */
  lemma {:induction false} StoryLinesSpec(noticias: seq<Json>)
    ensures StoryLines(noticias).Ok? <==> forall i :: 0 <= i < |noticias| ==> IsStory(noticias[i])
    ensures StoryLines(noticias).Ok? ==>
              var lines := StoryLines(noticias).value;
              && |lines| == |noticias|
              && forall i :: 0 <= i < |noticias| ==>
                   lines[i] == [Lit("- "), Val(noticias[i].fields["fecha"]),
                                Lit(": "), Val(noticias[i].fields["titulo"])]
  {
    if noticias != [] {
      StoryLinesSpec(noticias[1..]);
      if StoryLines(noticias).Ok? {
        forall i | 0 <= i < |noticias| ensures IsStory(noticias[i]) {
          if i > 0 { assert noticias[i] == noticias[1..][i - 1]; }
        }
      }
      if forall i :: 0 <= i < |noticias| ==> IsStory(noticias[i]) {
        assert forall i :: 0 <= i < |noticias| - 1 ==> noticias[1..][i] == noticias[i + 1];
      }
    }
  }

  /** The first story that cannot be shown aborts the deck: `KeyError("fecha")` or
      `KeyError("titulo")` for a dict, `TypeError` for anything else. */
  lemma {:induction false} StoryLinesFirstBad(noticias: seq<Json>, i: nat)
    requires i < |noticias| && !IsStory(noticias[i])
    requires forall j :: 0 <= j < i ==> IsStory(noticias[j])
    ensures StoryLines(noticias) == Err(
              if !noticias[i].JObj? then TypeError
              else if "fecha" !in noticias[i].fields then KeyError("fecha")
              else KeyError("titulo"))
  {
    if i > 0 {
      assert noticias[1..][i - 1] == noticias[i];
      assert forall j :: 0 <= j < i - 1 ==> noticias[1..][j] == noticias[j + 1];
      StoryLinesFirstBad(noticias[1..], i - 1);
      assert IsStory(noticias[0]);
    }
  }

  /** A channel slide's text: the three counter paragraphs, then one paragraph per
      story of `noticias` in input order. */
  lemma ChannelBodySpec(medioData: Json)
    requires ChannelBody(medioData).Ok?
    ensures medioData.JObj? && forall key :: key in CounterKeys ==> key in medioData.fields
    ensures Iter(NoticiasOf(medioData)).Ok?
    ensures var f := medioData.fields;
            var noticias := Iter(NoticiasOf(medioData)).value;
            var lines := ChannelBody(medioData).value;
            && |lines| == 3 + |noticias|
            && lines[0] == [Lit("Noticias: "), Val(f["cantidad_noticias"])]
            && lines[1] == [Lit("Audiencia: "), Val(f["total_audiencia"])]
            && lines[2] == [Lit("VPE: "), Val(f["total_vpe"]), Lit(" | VC: "), Val(f["total_vc"])]
            && forall i :: 0 <= i < |noticias| ==>
                 IsStory(noticias[i])
                 && lines[3 + i] == [Lit("- "), Val(noticias[i].fields["fecha"]),
                                     Lit(": "), Val(noticias[i].fields["titulo"])]
  {
    var f := medioData.fields;
    var counters := CounterLines(medioData).value;
    var noticias := Iter(NoticiasOf(medioData)).value;
    StoryLinesSpec(noticias);
    var lines := ChannelBody(medioData).value;
    assert lines == counters + StoryLines(noticias).value;
  }

  /** A channel's text can be shown exactly when its data is `Showable`; data that is
      not a dict raises `TypeError` at the first counter. */
  lemma ChannelBodyOk(medioData: Json)
    ensures ChannelBody(medioData).Ok? <==> Showable(medioData)
    ensures !medioData.JObj? ==> ChannelBody(medioData) == Err(TypeError)
  {
    if medioData.JObj? && Iter(NoticiasOf(medioData)).Ok? {
      StoryLinesSpec(Iter(NoticiasOf(medioData)).value);
    }
    if Showable(medioData) {
      assert CounterKeys[0] in medioData.fields && CounterKeys[1] in medioData.fields;
      assert CounterKeys[2] in medioData.fields && CounterKeys[3] in medioData.fields;
    }
  }

  /** In a channel dict, the first missing counter raises `KeyError` for that key. */
  lemma CounterMissingKey(medioData: Json, i: nat)
    requires medioData.JObj?
    requires i < |CounterKeys| && CounterKeys[i] !in medioData.fields
    requires forall j :: 0 <= j < i ==> CounterKeys[j] in medioData.fields
    ensures ChannelBody(medioData) == Err(KeyError(CounterKeys[i]))
  {
    var f := medioData.fields;
    if i == 1 {
      assert CounterKeys[0] in f;
    } else if i == 2 {
      assert CounterKeys[0] in f && CounterKeys[1] in f;
    } else if i == 3 {
      assert CounterKeys[0] in f && CounterKeys[1] in f && CounterKeys[2] in f;
    }
  }

  /** A channel dict without "noticias" gets its three counter paragraphs and no story line. */
  lemma NoNoticiasNoStories(medioData: Json)
    requires medioData.JObj? && "noticias" !in medioData.fields
    requires forall key :: key in CounterKeys ==> key in medioData.fields
    ensures ChannelBody(medioData).Ok? && |ChannelBody(medioData).value| == 3
  {
  }

  /** The channel slides are one per channel with truthy data, in the order of `medios`,
      each with that channel's text. */
  lemma {:induction false} ChannelSlidesSpec(datos: map<string, Json>, medios: seq<string>)
    requires ChannelSlides(datos, medios).Ok?
    ensures var slides := ChannelSlides(datos, medios).value;
            var present := Present(datos, medios);
            && |slides| == |present|
            && forall k :: 0 <= k < |present| ==>
                 ChannelBody(RawOf(datos, present[k])).Ok?
                 && slides[k] == Channel(present[k], ChannelBody(RawOf(datos, present[k])).value)
  {
    if medios != [] {
      ChannelSlidesSpec(datos, medios[1..]);
    }
  }

  /** The channel slides are named after the channels with truthy data, in the order of `medios`. */
  lemma {:induction false} ChannelSlidesNames(datos: map<string, Json>, medios: seq<string>)
    requires ChannelSlides(datos, medios).Ok?
    ensures var slides := ChannelSlides(datos, medios).value;
            var present := Present(datos, medios);
            && |slides| == |present|
            && forall k :: 0 <= k < |present| ==> slides[k].Channel? && slides[k].name == present[k]
  {
    if medios != [] {
      ChannelSlidesNames(datos, medios[1..]);
    }
  }

  /** The channel slides succeed exactly when every channel with truthy data has a showable text. */
  lemma {:induction false} ChannelSlidesOk(datos: map<string, Json>, medios: seq<string>)
    ensures ChannelSlides(datos, medios).Ok?
        <==> forall m :: m in Present(datos, medios) ==> ChannelBody(RawOf(datos, m)).Ok?
  {
    if medios != [] {
      ChannelSlidesOk(datos, medios[1..]);
      assert Present(datos, medios) ==
        (if Truthy(RawOf(datos, medios[0])) then [medios[0]] else []) + Present(datos, medios[1..]);
    }
  }

  lemma {:induction false} PresentMembers(datos: map<string, Json>, medios: seq<string>, m: string)
    ensures m in Present(datos, medios) <==> m in medios && Truthy(RawOf(datos, m))
  {
    if medios != [] {
      PresentMembers(datos, medios[1..], m);
      assert medios == [medios[0]] + medios[1..];
    }
  }

  // ---------------------------------------------------------------------------
  // Chart slides and the whole deck
  // ---------------------------------------------------------------------------

  /** The chart slides are built exactly when no download gives a file that is not an
      image, and fail with `UnidentifiedImageError` otherwise. Then there is one chart
      slide per URL, in order, with a picture exactly when the download gave an image. */
  lemma {:induction false} ChartSlidesSpec(urls: seq<Json>, fetch: Json -> Download)
    ensures ChartSlides(urls, fetch).Ok? <==> forall u :: u in urls ==> fetch(u) != Unreadable
    ensures ChartSlides(urls, fetch).Err? ==> ChartSlides(urls, fetch).error == UnidentifiedImageError
    ensures ChartSlides(urls, fetch).Ok? ==>
              && |ChartSlides(urls, fetch).value| == |urls|
              && forall k :: 0 <= k < |urls| ==>
                   ChartSlides(urls, fetch).value[k] == Chart(urls[k], fetch(urls[k]) == Picture)
  {
    if urls != [] {
      ChartSlidesSpec(urls[1..], fetch);
      assert forall u :: u in urls <==> u == urls[0] || u in urls[1..];
    }
  }

  /** A successful plan is the summary slide, the channel slides and the chart slides. */
  lemma PlanParts(data: Json, filename: string, fetch: Json -> Download)
    requires Plan(data, filename, fetch).Ok?
    ensures data.JArr? && data.items != [] && data.items[0].JObj?
    ensures var d := data.items[0].fields;
            var urls := UrlsOf(data.items[1..]);
            && SummaryBody(d).Ok? && ChannelSlides(d, Medios).Ok? && ChartSlides(urls, fetch).Ok?
            && Plan(data, filename, fetch).value
               == Deck([Summary(SummaryTitle, SummaryBody(d).value)] + ChannelSlides(d, Medios).value
                       + ChartSlides(urls, fetch).value, "/tmp/" + filename)
  {
  }

  /** `slides` is a summary slide, then one slide per channel of `present` in that order,
      then one chart slide per URL of `urls` in that order. */
  ghost predicate DeckLayout(slides: seq<Slide>, present: seq<string>, urls: seq<Json>, fetch: Json -> Download) {
    && |slides| == 1 + |present| + |urls|
    && slides[0].Summary?
    && (forall k :: 0 <= k < |present| ==> slides[1 + k].Channel? && slides[1 + k].name == present[k])
    && (forall k :: 0 <= k < |urls| ==> slides[1 + |present| + k] == Chart(urls[k], fetch(urls[k]) == Picture))
    && (forall k :: 1 + |present| <= k < |slides| ==> slides[k].Chart?)
  }

  lemma SlidesLayout(slides: seq<Slide>, head: Slide, channels: seq<Slide>, present: seq<string>,
                     charts: seq<Slide>, urls: seq<Json>, fetch: Json -> Download)
    requires slides == [head] + channels + charts && head.Summary?
    requires |channels| == |present|
    requires forall k :: 0 <= k < |present| ==> channels[k].Channel? && channels[k].name == present[k]
    requires |charts| == |urls| && forall k :: 0 <= k < |urls| ==> charts[k] == Chart(urls[k], fetch(urls[k]) == Picture)
    ensures DeckLayout(slides, present, urls, fetch)
  {
  }

  /** A successful deck is the summary, then the present channels in the fixed order,
      then one chart slide per collected URL; it is saved to "/tmp/" + filename. */
  lemma DeckShape(data: Json, filename: string, fetch: Json -> Download)
    requires Plan(data, filename, fetch).Ok?
    ensures data.JArr? && data.items != [] && data.items[0].JObj?
    ensures Plan(data, filename, fetch).value.path == "/tmp/" + filename
    ensures DeckLayout(Plan(data, filename, fetch).value.slides, Present(data.items[0].fields, Medios),
                       UrlsOf(data.items[1..]), fetch)
  {
    PlanParts(data, filename, fetch);
    var d := data.items[0].fields;
    var urls := UrlsOf(data.items[1..]);
    var deck := Plan(data, filename, fetch).value;
    ChannelSlidesNames(d, Medios);
    ChartSlidesSpec(urls, fetch);
    SlidesLayout(deck.slides, Summary(SummaryTitle, SummaryBody(d).value),
                 ChannelSlides(d, Medios).value, Present(d, Medios), ChartSlides(urls, fetch).value, urls, fetch);
  }

  /** On success, a channel has a slide exactly when its `<name>_raw` entry is truthy. */
  lemma ChannelSlideIffTruthy(data: Json, filename: string, fetch: Json -> Download, m: string)
    requires Plan(data, filename, fetch).Ok? && m in Medios
    ensures data.JArr? && data.items != [] && data.items[0].JObj?
    ensures var slides := Plan(data, filename, fetch).value.slides;
            (exists k :: 0 <= k < |slides| && slides[k].Channel? && slides[k].name == m)
            <==> Truthy(RawOf(data.items[0].fields, m))
  {
    var d := data.items[0].fields;
    var slides := Plan(data, filename, fetch).value.slides;
    var present := Present(d, Medios);
    var urls := UrlsOf(data.items[1..]);
    DeckShape(data, filename, fetch);
    PresentMembers(d, Medios, m);
    if exists k :: 0 <= k < |slides| && slides[k].Channel? && slides[k].name == m {
      var k :| 0 <= k < |slides| && slides[k].Channel? && slides[k].name == m;
      if k == 0 {
        assert slides[0].Summary?;
      } else if k < 1 + |present| {
        assert slides[1 + (k - 1)].name == present[k - 1];
      }
    }
    if Truthy(RawOf(d, m)) {
      var j :| 0 <= j < |present| && present[j] == m;
      assert 0 <= 1 + j < |slides| && slides[1 + j].Channel? && slides[1 + j].name == m;
    }
  }

  /** The deck is built exactly when the input validates, all summary keys are present,
      every channel with truthy data is `Showable`, and no collected URL downloads to
      a file that is not an image. */
  lemma PlanSucceeds(data: Json, filename: string, fetch: Json -> Download)
    ensures Plan(data, filename, fetch).Ok?
        <==> && data.JArr? && data.items != [] && data.items[0].JObj?
             && (forall key :: key in SummaryKeys ==> key in data.items[0].fields)
             && (forall m :: m in Present(data.items[0].fields, Medios) ==>
                   Showable(RawOf(data.items[0].fields, m)))
             && (forall u :: u in UrlsOf(data.items[1..]) ==> fetch(u) != Unreadable)
  {
    if Validate(data).Ok? {
      var d := data.items[0].fields;
      ChannelSlidesOk(d, Medios);
      forall m | m in Present(d, Medios) {
        ChannelBodyOk(RawOf(d, m));
      }
      ChartSlidesSpec(UrlsOf(data.items[1..]), fetch);
      if forall key :: key in SummaryKeys ==> key in d {
        assert SummaryKeys[0] in d && SummaryKeys[1] in d && SummaryKeys[2] in d;
        assert SummaryKeys[3] in d && SummaryKeys[4] in d && SummaryKeys[5] in d;
      }
    }
  }

  /** Two slide lists that differ only in their chart slides, and there only in the pictures. */
  lemma SameSlidesButPictures(head: Slide, channels: seq<Slide>, c1: seq<Slide>, c2: seq<Slide>,
                              urls: seq<Json>, f2: Json -> Download)
    requires head.Summary? && forall k :: 0 <= k < |channels| ==> channels[k].Channel?
    requires |c1| == |urls| && forall k :: 0 <= k < |urls| ==> c1[k].Chart? && c1[k].url == urls[k]
    requires |c2| == |urls| && forall k :: 0 <= k < |urls| ==> c2[k] == Chart(urls[k], f2(urls[k]) == Picture)
    ensures var s1, s2 := [head] + channels + c1, [head] + channels + c2;
            && |s2| == |s1|
            && forall k :: 0 <= k < |s1| ==>
                 s2[k] == (if s1[k].Chart? then Chart(s1[k].url, f2(s1[k].url) == Picture) else s1[k])
  {
  }

  /** A download outcome decides only the picture of its own chart slide, or the
      `UnidentifiedImageError` of a file that is not an image: every other failure is
      the same whatever the downloads give, and two decks built from the same input
      have the same slides in the same order apart from those pictures. */
  lemma DownloadsOnlyAffectPictures(data: Json, filename: string, f1: Json -> Download, f2: Json -> Download)
    ensures (Plan(data, filename, f1).Err? && Plan(data, filename, f1).error != UnidentifiedImageError)
            ==> Plan(data, filename, f2) == Plan(data, filename, f1)
    ensures Plan(data, filename, f1).Ok? && Plan(data, filename, f2).Ok? ==>
              var s1 := Plan(data, filename, f1).value.slides;
              && |Plan(data, filename, f2).value.slides| == |s1|
              && forall k :: 0 <= k < |s1| ==>
                   Plan(data, filename, f2).value.slides[k]
                   == (if s1[k].Chart? then Chart(s1[k].url, f2(s1[k].url) == Picture) else s1[k])
  {
    if Validate(data).Ok? {
      var d := data.items[0].fields;
      var urls := UrlsOf(data.items[1..]);
      ChartSlidesSpec(urls, f1);
      ChartSlidesSpec(urls, f2);
      if Plan(data, filename, f1).Ok? && Plan(data, filename, f2).Ok? {
        PlanParts(data, filename, f1);
        PlanParts(data, filename, f2);
        ChannelSlidesNames(d, Medios);
        SameSlidesButPictures(Summary(SummaryTitle, SummaryBody(d).value), ChannelSlides(d, Medios).value,
                              ChartSlides(urls, f1).value, ChartSlides(urls, f2).value, urls, f2);
      }
    }
  }
}
