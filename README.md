# Weather dashboard: fetch, derive and snapshot, in Dafny

This project models the logic of the `WeatherDashboard` desktop app (`wheather.py`). The app asks a weather API for a city's current conditions and a three-hourly forecast, fills eight labelled fields, and draws three charts. The model covers four parts:

- **The fetch** (`fetch_weather`). This is a class with the two fields the app keeps, `weather_data` and `forecast_data`, and a method that takes the two HTTP responses as inputs. It rejects a blank city entry (after stripping) and sends the current-conditions request. It classifies 401, then 404, then any other 4xx/5xx or connection failure. It stores the current payload, sends the forecast request, stores the forecast payload, and then builds the display and the charts. Any exception while building them is the generic error. A ghost field records the requests the latest fetch sent, in order (`Dashboard.WeatherDashboard.FetchWeather`, specified by the function `Dashboard.Fetch`).
- **The forecast series** (`wheather.py:223-228`). The first `min(8, |list|)` entries, in source order, become four aligned lists: temperatures, feels-like, humidity and `dt_txt.split()[1][:5]` time labels (`Forecast`).
- **The display record and the chart data** (`update_info`, and the data half of `create_visualizations`). The record copies fields without rounding and title-cases the description. The line and bar charts come from the series. The bars are labelled `int(h)%`. The pie always has four wedges from the current payload (`Display`, `Charts`).
- **The snapshot** (`save_data`). It does nothing when the stored current payload is falsy. Otherwise it produces the file name `weather_data_YYYYMMDD_HHMMSS.json` and a document with keys `current` and `forecast` (`Snapshot`, `Dashboard.WeatherDashboard.SaveData`).

The payloads are modelled as decoded JSON values (`Json.Json`). Like Python's `json` module, the model keeps ints and floats apart. Both fields start as JSON null, which is Python's `None`. The Python string operations the code uses are written out in `Text`: `strip`, `split`, `title`, `str(int)` and strftime's zero padding. `Trunc` models `int()` on a float.

Files: `json.dfy`, `text.dfy`, `forecast.dfy`, `display.dfy`, `charts.dfy`, `snapshot.dfy`, `dashboard.dfy`, with one module each.

## Behaviour worth noting

The model keeps these behaviours of the code as they are:

- **Replacement is not atomic.** `weather_data` is assigned at line 164, before the forecast request at lines 173-175. A failed forecast request therefore leaves the new current payload next to the old forecast, which may still be null (`Dashboard.ForecastFailureLeavesPartialState`, `Dashboard.MixedStateExample`).
- **Only 4xx and 5xx are failures.** Apart from 401 and 404, the current response is rejected only by `raise_for_status` (line 163), which raises for statuses 400-599. A 1xx, 3xx or 6xx response is taken as a payload.
- **Saving without data does nothing.** The guard at line 286 is Python truthiness. A falsy `weather_data` (None, or an empty JSON object) makes `save_data` return without an error or a file.
- **A string `list` is sliced too.** Line 223 slices whatever `forecast['list']` is. For an empty string the series is empty. For a non-empty string the first comprehension fails on its first character.

## Model

| member | source | states |
|---|---|---|
| `Dashboard.Fetch` | wheather.py:130-188 | Only blank input gives the input error, and then no request is sent. The first request is for the stripped city's current conditions. The forecast request is sent exactly when the current response is accepted. Each field either takes its own response's payload or keeps its old value. Success holds exactly when both payloads are stored and the display and charts build from them, and it carries exactly those views. |
| `Dashboard.WeatherDashboard.FetchWeather` | wheather.py:130-188 | The step-by-step method leaves both fields, the requests it sent and the outcome as `Fetch` of the old state gives them. |
| `Dashboard.CurrentFailure` | wheather.py:150-163 | The current response is rejected exactly when it does not deliver a payload. 401 is the auth error and 404 is city-not-found, both recognised before `raise_for_status`. The network error comes exactly from a failed connection or another status that `raise_for_status` rejects. |
| `Dashboard.Present` | wheather.py:178-179 | The display and the charts both build exactly when the current payload is complete and the charts build. The temperature and feels-like in the labels are the first two pie wedges. |
| `Dashboard.WeatherDashboard.constructor` | wheather.py:24-25 | Both fields start as None (JSON null), and no fetch has sent a request yet. |
| `Dashboard.BlankInputIssuesNothing` | wheather.py:131-135 | Empty or whitespace-only input gives the input error, sends no request and changes neither field. |
| `Dashboard.UnauthorizedComesFirst` | wheather.py:150-156 | A 401 is an auth error, checked ahead of 404 and `raise_for_status`. Only the current request was sent, and both fields are unchanged. |
| `Dashboard.NotFoundStopsFetch` | wheather.py:158-161 | A 404 is city-not-found. No forecast request is sent, and both fields are unchanged. |
| `Dashboard.CurrentFailureIsNetworkError` | wheather.py:163 | Any other 4xx/5xx or a connection failure on the current request is a network error. No forecast request is sent, and the state is unchanged. |
| `Dashboard.ForecastFailureLeavesPartialState` | wheather.py:163-175 | A failed forecast request is a network error. `weather_data` already holds the new payload and `forecast_data` keeps its old value. Both requests were sent. |
| `Dashboard.BothDeliveredReplacesBoth` | wheather.py:164-181 | When both responses are accepted, both fields hold the new payloads. The outcome is the display and charts built from them, or the generic error when building raises. |
| `Dashboard.SuccessShowsStoredPayloads` | wheather.py:175-181 | On success the record is `Normalize` of the stored current payload. The lines and bars are the series built from the stored forecast payload. The pie comes from the stored current payload. |
| `Dashboard.ForecastChangesOnlyWithWeather` | wheather.py:164-175 | The stored forecast changes only in a fetch that also stored a new current payload, after both requests were sent. |
| `Dashboard.MixedStateExample` | wheather.py:164-175 | After a successful fetch, a second fetch whose forecast gets a 503 leaves the second city's current payload paired with the first city's forecast. |
| `Dashboard.WeatherDashboard.SaveData` | wheather.py:284-296 | Nothing is saved exactly when the stored current payload is falsy. Otherwise the file is named from the clock, and its document has exactly the keys `current` and `forecast`, holding the two stored payloads. |
| `Snapshot.Stamp` | wheather.py:287 | The stamp is 15 characters: 8 digits, `_`, 6 digits. |
| `Snapshot.FileName` | wheather.py:288 | The name is the fixed prefix, the stamp and the fixed suffix, and the stamp can be cut back out of the name. |
| `Snapshot.FileNameShape` | wheather.py:287-288 | The name is `weather_data_`, then 8 digits, `_`, 6 digits and `.json`: 33 characters. The 15 characters in the middle are the stamp. |
| `Snapshot.StampFields` | wheather.py:287 | The stamp is the 8-character date part, `_`, and the 6-character clock part. |
| `Snapshot.DateFields` | wheather.py:287 | The `%Y%m%d` part is 8 digits, and its 4-, 2- and 2-digit fields read back as the year, month and day. |
| `Snapshot.ClockFields` | wheather.py:287 | The `%H%M%S` part is 6 digits, and its three 2-digit fields read back as the hour, minute and second. |
| `Snapshot.FileNameInjective` | wheather.py:287-288 | Two saves get the same file name exactly when the clock read the same second. |
| `Forecast.Project` | wheather.py:225-228 | The four comprehensions fail exactly when some entry lacks a field. Otherwise all four lists have the entries' length, and index i of each list is the projection of entry i. |
| `Forecast.BuildSeries` | wheather.py:223-228 | For a list of entries, the series has length `min(8, |list|)`. It fails exactly when one of those entries is incomplete, and index i comes from list entry i, in source order. Every series is aligned and at most 8 long. |
| `Forecast.NoListNoSeries` | wheather.py:223 | A forecast without a `list`, or with one that is neither a list nor a string, gives no series. |
| `Forecast.TimeLabel` | wheather.py:228 | `dt_txt.split()[1][:5]` exists exactly when the text has at least two words. The label is then 1 to 5 characters long. |
| `Forecast.TimeLabelOfDateAndTime` | wheather.py:228 | For `date + " " + time`, the label is the first at most 5 characters of `time`. |
| `Forecast.TimeLabelOfApiFormat` | wheather.py:228 | For `YYYY-MM-DD HH:MM:SS`, the label is the `HH:MM` part. |
| `Forecast.TimeLabelNeedsTwoWords` | wheather.py:228 | A `dt_txt` with no whitespace has no second word, so taking the label raises. |
| `Display.Normalize` | wheather.py:190-217 | The record is built exactly when every field `update_info` reads is present, both temperatures are numbers and the description is a string. Each field is copied unchanged from its place in the payload. The description is title-cased. |
| `Display.CityLabel` | wheather.py:194-196 | The City label exists exactly when the name and the country have a `str()` text in the model. It is the name's text, `", "` and the country's text, and each piece can be cut back out of it. |
| `Display.CityLabelOfStrings` | wheather.py:194-196 | For string fields, the City label is `name + ", " + country`, and the name is its prefix. |
| `Display.DescriptionIsTitled` | wheather.py:215-217 | The shown description has the raw description's length and letters up to case. Each character is upper-cased at a word start and lower-cased elsewhere. |
| `Charts.BarLabels` | wheather.py:254-257 | There is one label per bar, in order. Label i is `str(int(h_i)) + "%"`. The labels fail exactly when some height is not a number. |
| `Charts.BarLabelReadsBack` | wheather.py:257 | A bar label ends in `%`, and what comes before it parses back to the height truncated toward zero. |
| `Charts.Pie` | wheather.py:262-272 | The pie exists exactly when the four keys are present in `main`. It has four wedges labelled Temperature, Feels Like, Min Temp, Max Temp. Wedge k is `main[temp / feels_like / temp_min / temp_max][k]`. |
| `Charts.Compose` | wheather.py:233-272 | The charts build exactly when every humidity is a number and the current `main` block has the four pie keys. Both lines and the bars share the series' time axis. The lines plot the temperatures and feels-like values, and the bars plot the humidity values. Bar i is labelled `str(int(h_i)) + "%"`. Wedge k is the k-th `stats` key of `main`, under the fixed labels. |
| `Charts.Visualize` | wheather.py:221-272 | The charts of a fetch build exactly when the forecast series builds, every humidity in it is a number, and the current `main` block has the four pie keys. The wedges are read from the current payload. |
| `Charts.ChartsAligned` | wheather.py:223-246 | Both lines, the bars and their labels all have one point per time label, and there are at most 8. |
| `Charts.PieFromCurrentOnly` | wheather.py:262-268 | The pie does not depend on the forecast. Its values are `[temp, feels_like, temp_min, temp_max]` of the current payload's `main`. |
| `Json.Truthy` | wheather.py:286 | A value is falsy exactly when it is None, False, 0, 0.0, an empty string, an empty list or an empty object. |
| `Json.Trunc` | wheather.py:257 | `int()` of a float truncates toward zero: the result is at most one away from the input, on the zero side. |
| `Text.Strip` | wheather.py:131 | `strip()` is empty exactly for blank text. Otherwise it neither starts nor ends with whitespace. |
| `Text.StripIsSlice` | wheather.py:131 | `strip()` cuts only whitespace: its result is a slice of the input with only whitespace before it and only whitespace after it. |
| `Text.TrimStartDropsSpace` | wheather.py:131 | The left half of `strip()` cuts only whitespace: its result is a suffix of the input, and everything before that suffix is whitespace. |
| `Text.TrimEndDropsSpace` | wheather.py:131 | The right half of `strip()` cuts only whitespace: its result is a prefix of its input, and everything after that prefix is whitespace. |
| `Text.TrimStartEmptyIffBlank` | wheather.py:131 | Stripping leading whitespace leaves nothing exactly when the text is blank. |
| `Text.Split` | wheather.py:228 | Every word `split()` yields is non-empty and free of whitespace. |
| `Text.SplitKeepsNonSpace` | wheather.py:228 | Concatenating the words gives exactly the input's non-whitespace characters, in order. |
| `Text.SplitEmptyIffBlank` | wheather.py:228 | `split()` yields no words exactly for blank text. |
| `Text.SplitJoinSpace` | wheather.py:228 | `" ".join(ws).split() == ws` for non-empty words without whitespace. |
| `Text.TitleAt` | wheather.py:216 | `title()` keeps the length. A character right after a letter is lower-cased, and every other character is upper-cased. |
| `Text.TitleSameLetters` | wheather.py:216 | `title()` changes letter case only. |
| `Text.TitleIdempotent` | wheather.py:216 | Title-casing twice equals title-casing once. |
| `Text.IntToStringRoundTrip` | wheather.py:257 | `str(int)` parses back to the same int. |
| `Text.PadDigitsValue` | wheather.py:287 | A zero-padded strftime field reads back as its number. |

## Left out

- The tkinter window, its widgets and layout (`setup_ui`, lines 29-128), the message boxes and the status-bar texts. The outcome is a tag instead.
- Building the display and the charts is cut short at the first exception. The labels already updated and the cleared figure (`fig.clear()`, line 221) stay on screen. The model keeps no widget state, so it does not show those half-updated widgets.
- `self.root.update()` (line 138) runs pending UI events in the middle of a fetch, so a second click could start a nested fetch. The model runs one fetch at a time.
- Json.Float, Json.IsNumber: a float is an unbounded real, so the model has no NaN, `Infinity` or `-Infinity`, which Python's `json` decodes. `int()` of those raises (line 257), and in the app that ends in the generic error. `IsNumber` also takes every int as formattable, while `:.1f` raises OverflowError for an int beyond the double range (lines 198 and 201). The model builds the views in all these cases.
- Float text rendering: `:.1f` for the temperatures, `str(speed)`, and the pie's `%1.1f°C`. The model keeps the values and checks only that `:.1f` gets a number. `Display.PyText` renders only strings, ints, booleans and None, so the City label of a float, list or dict name is not spelled out.
- Matplotlib and seaborn drawing, styling, colours and `canvas.draw`.
- Charts.Compose: matplotlib's own checks on the data are not modelled. For example, its pie refuses negative wedge sizes, so a city below 0 °C would reach the generic error in the app, while the model's chart data is still built.
- Charts.BarLabels: a non-numeric humidity is modelled as raising in `int()`. How matplotlib's unit conversion would treat such a bar height is not modelled.
- `requests.get`, the HTTP layer and JSON decoding are foreign calls. The responses are inputs and hold already-decoded payloads. A body that is not JSON is not modelled: depending on the `requests` version, it raises either a RequestException or a plain ValueError.
- The API key, the two URLs and the `units=metric` parameter are fixed configuration. The request trace records only the endpoint and the city. `main()` and the Tk main loop are event-loop plumbing.
- `datetime.now()` is the `DateTime` input, and writing the file and the success message box are I/O. `save_data` is never wired to a button; here it is a method that returns the file it would write.
- Snapshot.Stamp: `%Y` is modelled as four zero-padded digits. glibc prints years before 1000 without padding. `ValidDateTime` allows days 1-31 in every month.
- Text.Title: title-casing covers ASCII letters only. Other characters are kept unchanged and count as uncased, while Python's Unicode case tables would treat them otherwise.
