# Fyyur booking directory: lookup, form-error and show-partition logic

Fyyur is a small directory of venues, artists and the shows that join them.
This project models the three pieces of its logic that are pure and
sequential, and proves properties of them in Dafny:

- **Area lookup** (`find_area_index_by_location`). The venue listing groups
  venues into areas keyed by city and state. The lookup scans the areas in
  order. It returns the position of the first area whose city and state both
  match, or -1 when none does.
- **First form error** (`get_form_error`). A failed form submission shows one
  message: the first message of the first field, in declaration order, that
  has any. When no field has one, the caller's default is shown.
- **Past and upcoming shows** (`show_venue`, `show_artist`). The shows of a
  venue or an artist are compared with the current-time string. Shows
  strictly later go to the upcoming list and shows strictly earlier go to the
  past list. A show that starts exactly at the current time is in neither.
  Each kept show becomes one projected record, and each count is the length
  of its list.

Modules: `TextOrder` is the lexicographic string order used to compare
`start_time`. `SeqFilter` holds order-preserving filtering and projection.
`Areas`, `FormErrors` and `Shows` model the three pieces above. `Clock`
models how `get_current_time` turns a wall-clock reading into text.
`Wrappers` holds `Option` and `Result`.

Modelling choices:

- `start_time` is a string column (models.py:87). It is compared with the
  current-time string, so "later" is lexicographic character order.
- `venue.shows` and `artist.shows` are modelled as the stored shows whose
  foreign key names the entity, in the store's order. The queries have no
  `ORDER BY`, so the store's order stands for the database's order.
- The projection of a show (`Show.get_artist_details`,
  `Show.get_venue_details`) is a caller-supplied function `Show -> Option<D>`.
  Those helpers are not part of this model. `None` stands for a projection
  that raises, for instance when `format_datetime` cannot parse a start time.
- The bare `except:` of each page handler covers every step from the lookup
  to the counts. An unknown venue or artist id makes `Venue.query.get` /
  `Artist.query.get` return nothing, and the next attribute access fails. A
  projection that raises fails the page the same way. In both cases the
  model returns `Failure(NotFound)`, the handler's error branch.
- In `get_form_error`, the outer loop stops when `error_message is not
  default_error_message`. That is an object-identity test. The model stops
  once a field has supplied a message, which is the same thing as long as no
  message is the very object passed as the default.
- app.py:251 cannot run against models.py:63. There `Artist.shows` is
  declared with `lazy=True`, which gives a plain list that has no `filter`.
  The model treats both relations as filterable queries, as app.py uses them
  (see `Shows.ShowArtist` under "## Left out").

## Model

| member | source | states |
|---|---|---|
| `Areas.FindAreaIndexByLocation` | utils/utils.py:1-10 | The result is -1 or a valid index. At that index both city and state match, and no earlier area matches. The result is -1 exactly when no area matches. The areas are only read. It agrees with the reference `Areas.FirstAreaIndex`. |
| `Areas.FirstAreaIndex` | utils/utils.py:4-10 | The reference lookup has the same guarantees: bounds, a match at the result, first match wins, and -1 if and only if there is no match. |
| `Areas.FirstAreaIndexAppend` | utils/utils.py:4-8 | Appending an area never changes a lookup that already succeeded. It turns "no area" into the new area's position only when that area is at the location. |
| `Areas.LocationNeedsCityAndState` | utils/utils.py:6 | An area that agrees on only the city, or only the state, is never returned. |
| `FormErrors.GetFormError` | utils/forms.py:1-12 | When no field has a message, the result is the default. Otherwise the result is the default or the first message of some field. It equals `FormErrors.FormErrorMessage`. |
| `FormErrors.FirstErroringField` | utils/forms.py:4-10 | Gives the position of the first field with a non-empty message list, or -1 if and only if every list is empty. |
| `FormErrors.FormErrorMessage` | utils/forms.py:2-12 | When every list is empty, the result is the default. Otherwise it is the default or some field's first message. When field k is the first with messages, the result is that field's first message. |
| `FormErrors.LaterFieldsIgnored` | utils/forms.py:9-10 | Once a field has supplied the message, appending further fields does not change the result. |
| `FormErrors.OnlyFirstMessageMatters` | utils/forms.py:5-7 | Two error mappings give the same result when they agree on which fields have messages and on those fields' first messages. Names and later messages do not matter. |
| `Shows.UpcomingShows` | app.py:97 | Keeps the shows whose start time is strictly after now, as an order-preserving subsequence. A show is kept if and only if it is in the input and starts later. |
| `Shows.PastShows` | app.py:98 | Keeps the shows whose start time is strictly before now, as an order-preserving subsequence. A show is kept if and only if it is in the input and starts earlier. |
| `Shows.TiedShows` | app.py:97-98 | Holds exactly the shows whose start time equals now, which neither query returns. |
| `Shows.PartitionAccountsForEveryShow` | app.py:97-98 | The upcoming, past and tied shows together hold every show exactly as often as the input does, so \|upcoming\| + \|past\| + \|ties\| = \|shows\|. |
| `Shows.TieInNeither` | app.py:97-98 | A show starting exactly at now is in neither the upcoming nor the past list. |
| `Shows.UpcomingPastDisjoint` | app.py:97-98 | No show is both upcoming and past. |
| `Shows.BuildShowsSection` | app.py:99-114 | Fails if and only if some upcoming or past show's projection fails. Otherwise there is one projected record per upcoming show and one per past show, in the same order. Each count equals its list's length, and counts plus ties equal the number of shows. |
| `SeqFilter.ProjectAll` | app.py:102-108 | Gives one record per element, in order, each being that element's projection. Gives nothing if and only if some element's projection fails. |
| `Shows.ShowQueriesKeepOrder` | app.py:97-98 | The upcoming and past queries, and the venue and artist show relations, each return an order-preserving subsequence of what they select from. |
| `SeqFilter.FilterMultiset` | app.py:97-98 | A query keeps every copy of each show that satisfies its condition, and no other show. |
| `Shows.VenueShows` | app.py:97-98 | A venue's shows are, in order, exactly the stored shows whose venue id is that venue. |
| `Shows.ArtistShows` | app.py:251-252 | An artist's shows are, in order, exactly the stored shows whose artist id is that artist. |
| `Shows.ShowVenue` | app.py:89-120 | Fails with not-found if and only if the venue id is unknown or some upcoming or past show of the venue cannot be projected. Otherwise the counts are the numbers of the venue's shows after and before the current-time string, and together they are at most the venue's number of shows. |
| `Shows.ShowArtist` | app.py:243-275 | Fails with not-found if and only if the artist id is unknown or some upcoming or past show of the artist cannot be projected. Otherwise the counts are the numbers of the artist's shows after and before the current-time string, and together they are at most the artist's number of shows. |
| `Shows.VenueUpcomingMeansLater` | app.py:91-97 | With the corrected clock format, a show is among a venue's upcoming shows if and only if it is stored for that venue and starts after the clock reading. |
| `Shows.SwappedClockMisfilesShow` | app.py:42-43 | With the format as written, a show 15 minutes after the clock lands in the past list and not in the upcoming list. With the corrected format it is upcoming. |
| `Clock.CurrentTimeOrderFaithful` | app.py:42-43 | For valid readings, comparing two corrected renderings (`Clock.FormatCurrentTime`, `%Y-%m-%d %H:%M:%S`) as strings agrees with comparing the readings in time. |
| `Clock.AsWrittenMisordersShowTime` | app.py:42-43 | The format as written (`Clock.FormatCurrentTimeAsWritten`, `%Y-%m-%d %H:%S:%M`) breaks that agreement. At 10:05:30 the current time renders after a show stored for 10:20:00. |
| `Clock.DigitsOrder` | app.py:42-43 | Zero-padded numerals of one width compare as strings the way the numbers compare. They are equal only for equal numbers. |
| `TextOrder.StrLessTrichotomy` | app.py:97-98 | Any two start times compare one way, the other way, or are equal. So ties are the only shows in neither list. |
| `TextOrder.StrLessAsymmetric` | app.py:97-98 | No start time is both before and after now. |
| `TextOrder.StrLessIsStrictTotalOrder` | app.py:97-98 | The order the start times are compared in is irreflexive and transitive, and any two distinct start times are ordered one way or the other. |
| `Shows.FailingProjectionFailsVenuePage` | app.py:102-116 | A known venue's page fails whenever one of its shows that does not start exactly at now cannot be projected. |
| `TextOrder.StrLessIrreflexive` | app.py:97-98 | No start time is strictly before or after itself, so a start time equal to now satisfies neither strict comparison. |

## Left out

- HTTP routing, template rendering, flashing, redirects and JSON responses are left out. They are web plumbing.
- Database session handling (add, commit, rollback, close) is left out. It is ORM and transaction I/O.
- The error branch of `show_venue` and `show_artist` calls `not_found_error()` without the argument that handler requires. The HTTP status the request ends with is therefore left out. The model only records that no page is produced (`Failure(NotFound)`).
- The `ilike` name searches are left out. `%` and `_` in the search term act as database wildcards, so they are not plain substring logic.
- `format_datetime` is left out. It delegates to the `dateutil` and `babel` libraries, which are not part of this model.
- Shows.ShowVenue: assumes the show queries themselves (app.py:97-98) do not raise. Only an unknown id and a failing projection are modelled as failures; database errors inside the bare `except:` are not.
- Shows.ShowArtist: assumes `artist.shows` can be filtered as app.py:251-252 does. As models.py:63 declares it (`lazy=True`, a plain list), that call raises and every known artist's page takes the error branch. The model does not reproduce that.
- The wall clock read by `get_current_time` is a parameter. Only its rendering as text is modelled. `Shows.ShowVenue` and `Shows.ShowArtist` take the rendered current-time string. `Shows.VenueUpcomingMeansLater` connects that string to a clock reading.
- `Venue.get_areas_venues`, `get_base_details`, `get_full_details`, `Show.get_artist_details` and `Show.get_venue_details` are not part of this model. models.py does not define them. So the area grouping itself and the detail projections are not modelled, and the show projection is a parameter.
- The database's string collation is left out. Start times are compared by character code. That matches a byte-order collation and the digit-and-punctuation layout of timestamps.
- The schema declarations and the migration (`DateTime` there versus `String` in models.py) are left out. They are storage, not behaviour.
- Clock.Valid: readings are restricted to years 1000 to 9999. `%Y` pads differently below year 1000 on some platforms.

## Findings

| source | as written | input that shows it | evidently intended | confidence | as-written member | corrected member |
|---|---|---|---|---|---|---|
| app.py:42-43 | `get_current_time` formats with `'%Y-%m-%d %H:%S:%M'`, which writes seconds where the minutes belong | At wall clock 2020-01-01 10:05:30 the current time renders as `2020-01-01 10:30:05`. A show stored as `2020-01-01 10:20:00` sorts below that string, so it is listed as past although it is 15 minutes away | `'%Y-%m-%d %H:%M:%S'`, so that string order follows time order | medium, not executed: assumes start times are stored in the `%Y-%m-%d %H:%M:%S` layout | `Clock.FormatCurrentTimeAsWritten`, `Clock.AsWrittenMisordersShowTime`, `Shows.SwappedClockMisfilesShow` | `Clock.FormatCurrentTime`, `Clock.CurrentTimeOrderFaithful`, `Shows.VenueUpcomingMeansLater` |
