# json-to-pptx deck planning, modelled in Dafny

The service takes a JSON report body and turns it into a PowerPoint deck with
`generar_pptx(data, filename)` (app/ppt_generator.py). This project models what
that function decides:

- **Input checks.** The body must be a non-empty list whose first element is a dict.
  Otherwise it raises `ValueError` with one of two fixed messages.
- **Chart URLs.** Each later element that is a dict with a `"url"` key contributes
  its `"url"` value, in order. Every other element is skipped with a warning.
- **The slides, in order.**
  - A "Resumen Global" slide. It has four paragraphs: the period and the four global totals.
  - One slide per media channel, in the fixed order TV, Radio, Prensa, Medios
    Digitales. A channel gets a slide only if its `<name>_raw` entry is truthy.
    The slide shows three counter paragraphs, then one `- fecha: titulo` paragraph per story.
  - One chart slide per collected URL. The picture is attached only when the download returned a file.
    A downloaded file that is not an image makes `add_picture` raise, and no deck is saved.
- **Output.** The deck is saved to `"/tmp/" + filename`.

Every field except `<name>_raw` and `noticias` is read with direct indexing, so a missing
key raises `KeyError`. Indexing something that is not a dict raises `TypeError`. The model
keeps both as error results. `datos.get(medio + "_raw")` gives `None` for an absent channel,
and `medio_data.get("noticias", [])` gives an empty list of stories.

Files:

- `json.dfy`, module `PyJson`: the decoded JSON value, the Python exceptions, a
  `Result` type, and the Python semantics the function uses (truthiness, `d[key]`,
  `d.get(key, default)`, iteration with `for`).
- `ppt_generator.dfy`, module `PptGenerator`: the slide records and `Plan`, the whole
  transformation as a function. It also holds the imperative `GenerarPptx`, which
  appends URLs, slides and paragraphs one at a time in loops, as the Python code
  does. Each loop is a method proved equal to its specification function.
- `ppt_properties.dfy`, module `PptProperties`: lemmas about `Plan`, so also about `GenerarPptx`.

Other revisions of this renderer have `.get(key, 'N/A')` defaults, story pagination,
date and currency formatting, a methodology slide, a totals slide, chart titles, logos
and a single-dict input form. Those revisions are not part of this model. The
`generar_pptx` modelled here has none of these features, so it raises on a missing
field instead of showing a placeholder.

## Model

| member | source | states |
|---|---|---|
| `PptGenerator.GenerarPptx` | app/ppt_generator.py:6-80 | The step-by-step construction gives exactly the deck or exception of the specification `Plan`, for every input, file name and download outcome. |
| `PptGenerator.CollectImageUrls` | app/ppt_generator.py:22-31 | The loop over `data[1:]` returns the URL list `UrlsOf` of the items. |
| `PptGenerator.BuildChannelBody` | app/ppt_generator.py:55-64 | Adding one paragraph per story gives the channel text `ChannelBody`, or the exception its first failing lookup raises. |
| `PptGenerator.AddChannelSlides` | app/ppt_generator.py:49-64 | The channel loop appends the channel slides of `ChannelSlides` in the order TV, Radio, Prensa, Medios Digitales, or stops with the first exception. |
| `PptGenerator.AddChartSlides` | app/ppt_generator.py:67-71 | The chart loop appends one chart slide per URL, in order, with a picture when the download gave an image. It stops with `UnidentifiedImageError` at the first file that is not an image. |
| `PptProperties.RejectsNonList` | app/ppt_generator.py:10-11 | The result is `ValueError("Input data must be a non-empty list.")` if and only if the input is not a list or is the empty list. |
| `PptProperties.RejectsNonDictFirst` | app/ppt_generator.py:14-17 | The result is `ValueError("First item in data must be a dictionary.")` if and only if the input is a non-empty list whose first element is not a dict. |
| `PptProperties.NeverEmptySummaryError` | app/ppt_generator.py:14-19 | No input leads to the `IndexError` handler's `ValueError`. `data[0]` is read only after the non-empty check, so that branch is dead. |
| `PptProperties.LaterFailureKinds` | app/ppt_generator.py:38-71 | Once the input checks pass, every failure is a `KeyError` or `TypeError` from a lookup, or the `UnidentifiedImageError` of a downloaded file that is not an image. |
| `PptProperties.UrlsOfSelects` | app/ppt_generator.py:22-31 | The collected URLs are exactly the `"url"` values of the items that are dicts with a `"url"` key. They keep input order, and every image item is included. |
| `PptProperties.SummarySlideFirst` | app/ppt_generator.py:35-46 | On success, all six summary keys are present. Slide 0 is "Resumen Global" with four paragraphs, each given whole: `Período: <fechaInicial> al <fechaFinal>`, `Noticias totales: <totalGlobalNoticias>`, `Audiencia total: <totalGlobalAudiencia>` and `VPE Total: <totalGlobalVPE>`, then a bar separator and `VC Total: <totalGlobalVC>` on the same paragraph. Each value is the input value unchanged. |
| `PptProperties.SummaryMissingKey` | app/ppt_generator.py:38-43 | If a summary key is missing, the result is `KeyError` for the first missing key in reading order. No default is used. |
| `PptProperties.StoryLinesSpec` | app/ppt_generator.py:63-64 | The story paragraphs succeed if and only if every entry is a dict with `fecha` and `titulo`. On success there is one `- fecha: titulo` paragraph per entry, in input order. |
| `PptProperties.StoryLinesFirstBad` | app/ppt_generator.py:63-64 | The first entry that cannot be shown decides the exception. A non-dict gives `TypeError`. A dict gives `KeyError("fecha")`, or `KeyError("titulo")` when only `titulo` is missing. |
| `PptProperties.ChannelBodySpec` | app/ppt_generator.py:55-64 | A channel slide's text is three whole counter paragraphs, `Noticias: <cantidad_noticias>`, `Audiencia: <total_audiencia>` and `VPE: <total_vpe>`, then a bar separator and `VC: <total_vc>` on the same paragraph. Then comes exactly one `- fecha: titulo` paragraph per entry of `noticias`, in order. |
| `PptProperties.ChannelBodyOk` | app/ppt_generator.py:55-64 | A channel's text can be built if and only if its data is a dict with the four counters and its `noticias` iterates to entries that are all dicts with `fecha` and `titulo`. Data that is not a dict raises `TypeError`. |
| `PptProperties.CounterMissingKey` | app/ppt_generator.py:55-59 | In a channel dict, the first missing counter, in reading order, raises `KeyError` for that key. |
| `PptProperties.NoNoticiasNoStories` | app/ppt_generator.py:55-64 | A channel dict with the four counters and no `noticias` gives exactly its three counter paragraphs. |
| `PptProperties.ChannelSlidesSpec` | app/ppt_generator.py:49-62 | The channel slides are one per channel with truthy data, in the fixed order. Each carries that channel's name and text. |
| `PptProperties.ChannelSlidesOk` | app/ppt_generator.py:49-64 | The channel loop succeeds if and only if every channel with truthy data has a text that can be shown. |
| `PptProperties.ChannelSlideIffTruthy` | app/ppt_generator.py:49-54 | On success, a channel has a slide if and only if its `<name>_raw` entry is truthy. So an absent, null, empty or zero entry gives no slide. |
| `PptProperties.ChartSlidesSpec` | app/ppt_generator.py:67-71 | The chart slides are built if and only if no URL downloads to a file that is not an image. Otherwise they fail with `UnidentifiedImageError`. On success there is one chart slide per URL, in order, with a picture exactly when the download gave an image. |
| `PptProperties.DeckShape` | app/ppt_generator.py:35-80 | On success there are 1 + (channels present) + (URLs collected) slides. The summary comes first, then the present channels in the fixed order, then one chart slide per URL. The path is `"/tmp/" + filename`. |
| `PptProperties.PlanSucceeds` | app/ppt_generator.py:10-71 | The deck is built if and only if all of these hold: the input checks pass; all six summary keys are present; every channel with truthy data is a dict with the four counters and showable stories; and no collected URL downloads to a file that is not an image. |
| `PptProperties.DownloadsOnlyAffectPictures` | app/ppt_generator.py:67-71 | Download outcomes decide only two things: the pictures on chart slides, and the `UnidentifiedImageError` of a file that is not an image. Any other failure is the same whatever the downloads give. Two successful decks from the same input have the same slides in the same order, apart from those pictures. |

## Left out

- python-pptx internals are not modelled: layouts, `Inches` geometry, text frames and `pr.save` serialisation. Slides are records of title, paragraphs, URL and a has-picture flag. A failure while saving is I/O and is not modelled.
- How values are rendered as text is not modelled. A paragraph keeps each input value as a JSON value next to its fixed label text, so Python's `str()` of a value is absent. So is python-pptx splitting a value that contains a newline into extra paragraphs. The emoji at the start of each label are omitted.
- `download_image` (app/utils.py) is a network GET plus a temporary-file write. It is a parameter `fetch: Json -> Download` that says whether a path came back and whether that file is an image python-pptx can read. So two downloads of the same URL are assumed to agree. Any other exception `add_picture` might raise on a readable image is not modelled.
- PptProperties.LaterFailureKinds: does not cover an exception from `pr.save` (app/ppt_generator.py:79), for example a file-system error while writing `/tmp/<filename>`. Saving is I/O and is not modelled.
- PptProperties.PlanSucceeds: "the deck is built" means the slides are planned. A failure of `pr.save` (app/ppt_generator.py:79) after that is I/O and is not modelled.
- The `os.remove` of the temporary image and the `print` warnings (app/ppt_generator.py:31, 73-76) are file-system side effects and logging. They are not modelled.
- The FastAPI endpoint, the `uuid4` file name and the file response in app/main.py are HTTP plumbing and randomness. The file name is a parameter.
- JSON numbers are modelled as mathematical reals. The `NaN` and `Infinity` literals, which Python's `json` module accepts, are not modelled.
- Iterating over a non-empty dict used as `noticias` yields its string keys, and subscripting the first key raises `TypeError`. A map keeps no key order, so `PyJson.Iter` gives that `TypeError` directly.
