# Playlist app: song store, new-song form and list screen

This is a Dafny model of the logic in a small React Native song-list app. It covers three parts:

- **Local song store** (`src/storage/songsStorage.ts`). The whole collection is kept under the key `@playlist:songs` in the device's key-value store. It has load, prepend-save, remove-by-id and clear operations. The store is a class `SongsStorage.SongStore` whose field `storage: map<string, StoredValue>` the four methods update. The prepend and the filter are stated against reference functions, and lemmas prove their properties.
- **New-song form** (`app/new.tsx`). The duration pattern `^(\d{1,2}):(\d{2})$` is written out character by character and proved equal to a group-by-group reading of the pattern. `NewSong.Validate` checks the required fields, then the duration, in the order the screen does. It then builds the posted payload. The class `NewSongScreen` models the `submitting` flag, the dialog shown and the navigation back to the list.
- **List screen** (`app/index.tsx`). `SongList.ListFromBody` decides which shapes of the `GET /songs` body are accepted. The body is a JSON value (`JsonValue.Json`) read with JavaScript truthiness. The class `ListScreen` holds `songs`, `loading` and `error`, which a refresh updates. Small functions state the display rules: position label, duration chip, genre chip, list key, error text and empty-list text.

Helpers: `JsText` models `String.prototype.trim`, using the ECMAScript whitespace and line-terminator set, and the decimal rendering of a number. `Wrappers` holds `Option` and `Result`. `Types` holds the `Song` record of `src/types.ts`. `Dialog` holds the `Alert` dialog (a title and a message) that both screens show.

Inputs are parameters, not effects:
- The HTTP calls are not made. Their outcomes are method parameters: `GetOutcome`, and `PostOutcome` for the post.
- The clock reading `createdAt` is a parameter.
- The form's four input values are parameters of `BeginSave`.
- An `await` in the middle of `handleSave` and `refresh` splits each into a begin method and a complete method. This makes the "in flight" state (`submitting`, `loading`) observable.

Two facts about the code shape the model:
- `handleSave` guards the pattern test with the raw duration (app/new.tsx:23), so a duration of only spaces is tested, trims to `""` and is refused.
- The form posts to the remote API (app/new.tsx:39); neither screen calls the local store.

## Model

| member | source | states |
|---|---|---|
| SongsStorage.SongStore.LoadSongs | src/storage/songsStorage.ts:6-9 | returns the collection stored under the key, and the empty sequence when the key is absent or holds empty text |
| SongsStorage.LoadNothingStored | src/storage/songsStorage.ts:7-8 | a store without the key, or with empty text under it, loads as the empty collection |
| SongsStorage.SongStore.SaveSong | src/storage/songsStorage.ts:11-16 | returns `[song] + previous`: length previous+1, index 0 is the song, the rest is the previous collection in order; the store becomes the old store with only the key rewritten to the result, so loading returns the result |
| SongsStorage.SongStore.RemoveSong | src/storage/songsStorage.ts:18-23 | returns the filter of the previous collection by id: no song with that id remains and the length does not grow; only the key is rewritten, to the result, so loading returns the result |
| SongsStorage.SongStore.ClearAllSongs | src/storage/songsStorage.ts:25-27 | only the key is deleted; afterwards it has no value and loading gives the empty collection |
| SongsStorage.CollectionIn | src/storage/songsStorage.ts:7-8 | the collection a load yields from a store: `raw ? JSON.parse(raw) : []` under the round-trip assumption; its properties are stated by LoadNothingStored and LoadSongs |
| SongsStorage.SaveThenLoad | src/storage/songsStorage.ts:11-16 | a load that follows a save returns exactly what the save returned, `[song] + previous`, and no key other than `@playlist:songs` changed |
| SongsStorage.RemoveThenLoad | src/storage/songsStorage.ts:18-23 | a load that follows a removal returns exactly what the removal returned, and no key other than `@playlist:songs` changed |
| SongsStorage.ClearThenLoad | src/storage/songsStorage.ts:25-27 | after a clear the key has no value, a load returns the empty collection, and no other key changed |
| SongsStorage.RemoveById | src/storage/songsStorage.ts:20 | the `!==` filter by id; its properties are stated by the RemoveById lemmas below |
| SongsStorage.RemoveByIdMembership | src/storage/songsStorage.ts:20 | a song survives the filter if and only if it was in the collection and has a different id |
| SongsStorage.RemoveByIdCounts | src/storage/songsStorage.ts:20 | every song with another id keeps its number of occurrences; songs with the id occur zero times |
| SongsStorage.RemoveByIdLength | src/storage/songsStorage.ts:20 | the filter never lengthens the collection, and keeps its length if and only if no song has the id |
| SongsStorage.RemoveAbsentId | src/storage/songsStorage.ts:20 | removing an id no song carries returns the collection unchanged |
| SongsStorage.RemoveByIdIdempotent | src/storage/songsStorage.ts:20 | removing the same id twice equals removing it once |
| SongsStorage.RemoveByIdAppend | src/storage/songsStorage.ts:20 | the filter of a concatenation is the concatenation of the filtered parts |
| SongsStorage.RemoveByIdKeepsOrder | src/storage/songsStorage.ts:20 | two surviving songs appear in the result in their original relative order |
| SongsStorage.TwoSavesThenLoad | src/storage/songsStorage.ts:11-15 | saving two songs into an empty store and loading gives the second song first and the first song second |
| JsText.Trim | app/new.tsx:19-34 | `String.prototype.trim`; TrimIsTrimOf, TrimEmptyIff and TrimIdempotent state its properties |
| JsText.TrimIsTrimOf | app/new.tsx:19 | `trim` returns the slice of its argument that remains once leading and trailing whitespace is removed, and that slice has no whitespace at either end |
| JsText.TrimEmptyIff | app/new.tsx:19-23 | a string trims to the empty string if and only if it is entirely whitespace |
| JsText.TrimIdempotent | app/new.tsx:31-34 | trimming an already trimmed value changes nothing |
| NewSong.MatchesDuration | app/new.tsx:8 | `DURATION_REGEX.test`, character by character; MatchesDurationIff proves it equal to the group reading of the pattern |
| NewSong.MatchesDurationIff | app/new.tsx:8 | the character-level test accepts exactly the strings made of 1-2 digits, a colon and 2 digits |
| NewSong.AnyDigitsAccepted | app/new.tsx:8 | the test is purely syntactic: any digits are accepted as minutes (0-99) and as seconds (00-99) |
| NewSong.DurationExamples | app/new.tsx:8 | `03:45`, `3:45` and `0:99` match; `345`, `3:4`, `abc`, `100:00`, ` 3:45` and the empty string do not |
| NewSong.Validate | app/new.tsx:19-36 | the two checks of `handleSave` in order, then the payload; ValidateAcceptsIff, MissingFieldIff, InvalidDurationRejected, BlankDurationRejected, EmptyDurationSkipsCheck and PayloadIsTrimmed state its properties |
| NewSong.ValidateAcceptsIff | app/new.tsx:19-26 | a submission is accepted if and only if title and artist contain a non-whitespace character and the raw duration is empty or trims to minutes:seconds |
| NewSong.RequiredCheckedFirst | app/new.tsx:19-22 | a blank title or artist is refused as a missing field whatever the duration, so that check runs first |
| NewSong.MissingFieldIff | app/new.tsx:19-22 | the missing-field error is given if and only if the title or the artist is blank |
| NewSong.InvalidDurationRejected | app/new.tsx:23-26 | with title and artist filled in, a typed duration whose trim is not minutes:seconds is refused as an invalid duration, not as a missing field |
| NewSong.BlankDurationRejected | app/new.tsx:23-26 | a typed duration made only of whitespace is refused as an invalid duration |
| NewSong.EmptyDurationSkipsCheck | app/new.tsx:23-32 | an empty duration is never refused, and it is posted as the empty string |
| NewSong.PayloadIsTrimmed | app/new.tsx:30-36 | an accepted payload's title, duration, artist and genre are the trims of the inputs; title and artist are non-empty; createdAt is the given clock reading; a non-empty duration has the mm:ss shape; there is no id field |
| JsText.MessageOr | app/new.tsx:46 | `message or fallback` yields the message when it is non-empty and the fallback when it is empty, so it is never empty when the fallback is not |
| NewSong.ValidationAlert | app/new.tsx:20-24 | the dialog of a refused submission: the required-fields dialog or the invalid-duration dialog |
| NewSong.NewSongScreen.BeginSave | app/new.tsx:18-28 | while submitting, pressing save does nothing (the button is disabled, line 68). A refused form shows its dialog, sends no request and leaves `submitting` false. An accepted form sends the validated payload and sets `submitting` |
| NewSong.NewSongScreen.constructor | app/new.tsx:16 | the form screen starts with `submitting` false, no dialog shown and no navigation to the list |
| NewSong.NewSongScreen.CompleteSave | app/new.tsx:39-49 | once the request settles, `submitting` is false on both paths; navigation to the list happens only on success; the dialog is the success dialog or the error message falling back to the default text |
| JsonValue.Truthy | app/index.tsx:26-27 | JavaScript truthiness of a JSON value: `null`, `false`, `0` and `""` are falsy, arrays and objects (even empty) are truthy |
| JsonValue.FirstValue | app/index.tsx:27 | `Object.values(o)[0]`: the first property's value, or nothing for an empty object; FirstValueFallback and ListFromBodyAcceptsIff use it |
| JsonValue.Property | app/index.tsx:27 | a property read finds a value if and only if some property has that name, and the value found belongs to a property of that name |
| JsonValue.PropertyOfDistinct | app/index.tsx:27 | in an object whose names are distinct, reading a name gives the value of the one property with that name |
| SongList.ListFromBody | app/index.tsx:24-35 | the response-shape decision; ListFromBodyAcceptsIff and the lemmas below state its properties |
| SongList.RefreshResult | app/index.tsx:36-39 | the end of a refresh: the accepted list, or the error message with the `Falha ao carregar músicas` fallback; RefreshErrorIsShown and EmptyTextAfterRefresh state its properties |
| SongList.BareArrayAccepted | app/index.tsx:24-25 | a bare array body becomes the list unchanged, with element shapes unchecked |
| SongList.TruthySongsDecides | app/index.tsx:26-32 | a truthy `songs` decides alone: its elements if it is an array, otherwise an error even when another property is an array |
| SongList.EmptySongsArrayIsTruthy | app/index.tsx:27-29 | `songs: []` is truthy and yields the empty list |
| SongList.FirstValueFallback | app/index.tsx:27-32 | without a truthy `songs`, the first property value decides and is accepted only if it is an array |
| SongList.NonObjectRejected | app/index.tsx:26-35 | null, booleans, numbers and strings are refused with the invalid-response message |
| SongList.ListFromBodyAcceptsIff | app/index.tsx:24-35 | a body yields a given list if and only if it is that array, or an object with a `songs` property holding that array, or an object with no truthy `songs` whose first value is that array |
| SongList.RefreshErrorIsShown | app/index.tsx:36-40 | every failure of a refresh carries a non-empty message |
| SongList.ErrorText | app/index.tsx:100 | the error line is shown if and only if the error is set and non-empty, as `Erro: ` followed by the error |
| SongList.ShowsLoadingText | app/index.tsx:101 | the loading text shows while loading with an empty list; LoadingAndEmptyTextExclusive relates it to the empty-list text |
| SongList.ShowsEmptyText | app/index.tsx:108-112 | the empty-list text shows if and only if the list is empty, nothing is loading and no error line is shown |
| SongList.LoadingAndEmptyTextExclusive | app/index.tsx:101-112 | the loading text and the empty-list text never show together |
| SongList.EmptyTextAfterRefresh | app/index.tsx:36-43 | after a settled refresh, the empty-list text shows if and only if the refresh accepted an empty list |
| SongList.PositionLabel | app/index.tsx:53 | the label is `#` followed by decimal digits, without a leading zero, that denote index+1 |
| JsText.NatToDecimal | app/index.tsx:53 | the decimal rendering of a number; DecimalRoundTrip states its properties |
| JsText.DecimalRoundTrip | app/index.tsx:53 | the decimal rendering of a number is non-empty digits without a leading zero, and reads back as the number |
| SongList.PositionLabelsDistinct | app/index.tsx:53 | different positions get different labels |
| SongList.DurationLabel | app/index.tsx:63 | the chip shows the duration, or `00:00` when the duration is missing or empty; the chip text is never empty |
| SongList.ShowsGenreChip | app/index.tsx:65 | the genre chip shows if and only if the genre is present and non-empty |
| SongList.ListKey | app/index.tsx:105 | the key is the id when it is present, even an empty one; otherwise it is the title, `-` and the artist |
| SongList.ListScreen.constructor | app/index.tsx:11-13 | the list screen starts with an empty list, `loading` false, no error and no dialog shown |
| SongList.ListScreen.BeginRefresh | app/index.tsx:16-17 | a refresh starts by setting `loading` and clearing `error`, leaving the list as it was |
| SongList.ListScreen.CompleteRefresh | app/index.tsx:24-43 | an accepted list replaces `songs`. On any failure the message becomes the error and the message of an `Erro` dialog, and the list is emptied. `loading` ends false on both paths |
| SongList.ListScreen.Refresh | app/index.tsx:15-44 | after a whole refresh `loading` is false. On success `error` is unset and the list is the accepted one. On failure the list is empty, a non-empty error is set and an `Erro` dialog shows it |
| SongList.ShapesScenario | app/index.tsx:24-40 | `{"songs": [...]}` and `{"data": [...]}` yield the same list; `{"error": "x"}` then leaves an empty list, sets the unexpected-shape error and shows it in an `Erro` dialog |

## Left out

- JSON encode and decode are assumed to be an exact round trip. The stored value is either the empty string or an array of songs. Non-JSON or corrupt stored text makes `JSON.parse` throw, and that path is not modelled.
- Failures of the key-value store itself (a rejected `getItem`/`setItem`/`removeItem`) are not modelled.
- Every key of the store holds a value of the same type as the songs key. What other keys really hold is immaterial: nothing reads them.
- Each store operation is atomic. The async read-modify-write race between overlapping saves and removes is a matter of concurrency.
- `apiConfig.ts` (base URL, timeout, headers) and the HTTP requests are left out; their outcomes are inputs. The post's response body is only logged, so it is not modelled.
- `new Date().toISOString()` is the clock; `createdAt` is a parameter.
- `Alert.alert` is recorded as the last dialog; `router.replace('/')` as a navigation flag. `console.log`, `Link`, `useFocusEffect`, the JSX layout, the `Field` component, `RootStackParamList`, `src/theme.ts` and all styles are presentation and are left out.
- A refresh that settles after a newer one has started (a stale response) is not modelled, because each refresh is modelled as ending before the next begins.
- JavaScript's key ordering for `Object.values` puts integer-like names first. An object's properties are given in the order that `Object.values` visits them.
- ListFromBodyAcceptsIff: assumes distinct property names, as any parsed object has. `ListFromBody` itself reads the first property of a name.
- `DurationLabel`, `ShowsGenreChip` and `ListKey` take the card's fields as strings, with `None` for `null` and `undefined` alike. A list element whose fields are not strings, and the `String(...)` conversion of such values, are not modelled, because the list elements' shapes are never checked.
- JSON numbers are `real`. JSON cannot carry `NaN` or infinities, so truthiness of a number is "non-zero".
- A failure whose error has no `message`, or a thrown non-`Error`, is a failure with the empty message; the fallback text then applies.
- The whitespace set of `trim` is the ECMAScript WhiteSpace and LineTerminator set under the current Unicode `Zs` category. A JavaScript engine built on an older Unicode table may differ slightly.
- Song ids are compared as strings (`!==`). A stored id of another JSON type is not modelled.
