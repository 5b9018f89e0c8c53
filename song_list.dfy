/**
  The list screen: how the body of `GET /songs` is turned into the list, the
  `songs`/`loading`/`error` state that a refresh updates, and the display rules
  of the list and its cards.
*/
module SongList {
  import opened Wrappers
  import opened JsText
  import opened JsonValue
  import opened Dialog

  const UnexpectedShapeMessage := "Formato inesperado da resposta da API."
  const InvalidResponseMessage := "Resposta inválida da API."
  const LoadFailedFallback := "Falha ao carregar músicas"

  /**
    The response-shape decision: a bare array is the list; for an object, its
    truthy `songs` or else its first property value, which must be an array;
    anything else is an error carrying the message that is thrown. The
    elements are taken as they come: their shape is not checked.
  */
  function ListFromBody(data: Json): Result<seq<Json>, string> {
    match data
    case JArr(items) => Success(items)
    case JObj(props) =>
      var songsField := Property(props, "songs");
      var lista := if songsField.Some? && Truthy(songsField.value) then songsField else FirstValue(props);
      if lista.Some? && lista.value.JArr? then Success(lista.value.items) else Failure(UnexpectedShapeMessage)
    case _ => Failure(InvalidResponseMessage)
  }

  /** How `GET /songs` ended; an empty message stands for an error without one. */
  datatype GetOutcome = Received(data: Json) | RequestFailed(message: string)

  /** What a refresh ends with: the accepted list, or the message shown as the error. */
  function RefreshResult(outcome: GetOutcome): Result<seq<Json>, string> {
    match outcome
    case Received(data) => ListFromBody(data)
    case RequestFailed(m) => Failure(MessageOr(m, LoadFailedFallback))
  }

  /** A bare array is the list, unchanged. */
  lemma BareArrayAccepted(items: seq<Json>)
    ensures ListFromBody(JArr(items)) == Success(items)
  {
  }

  /** A truthy `songs` decides alone: accepted when it is an array (even an empty one), refused otherwise. */
  lemma TruthySongsDecides(props: seq<(string, Json)>, songs: Json)
    requires Property(props, "songs") == Some(songs) && Truthy(songs)
    ensures ListFromBody(JObj(props)) == if songs.JArr? then Success(songs.items) else Failure(UnexpectedShapeMessage)
  {
  }

  /** `{"songs": []}` is an empty list, whatever array the other properties hold. */
  lemma EmptySongsArrayIsTruthy(props: seq<(string, Json)>)
    requires Property(props, "songs") == Some(JArr([]))
    ensures ListFromBody(JObj(props)) == Success([])
  {
  }

  /** Without a truthy `songs`, the first property value decides: it must be an array. */
  lemma FirstValueFallback(props: seq<(string, Json)>)
    requires Property(props, "songs").None? || !Truthy(Property(props, "songs").value)
    ensures ListFromBody(JObj(props)) ==
      if props != [] && props[0].1.JArr? then Success(props[0].1.items) else Failure(UnexpectedShapeMessage)
  {
  }

  /** `null`, booleans, numbers and strings are refused as invalid responses. */
  lemma NonObjectRejected(data: Json)
    requires !data.JArr? && !data.JObj?
    ensures ListFromBody(data) == Failure(InvalidResponseMessage)
  {
  }

  /**
    A body is accepted exactly when it is an array, or an object whose truthy
    `songs` is an array, or an object without a truthy `songs` whose first
    value is an array; and the list is that array's elements.
  */
  lemma ListFromBodyAcceptsIff(data: Json, list: seq<Json>)
    requires data.JObj? ==> DistinctKeys(data.props)
    ensures ListFromBody(data) == Success(list) <==>
      || data == JArr(list)
      || (data.JObj? && exists k :: 0 <= k < |data.props| && data.props[k] == ("songs", JArr(list)))
      || (data.JObj? && (forall k :: 0 <= k < |data.props| && data.props[k].0 == "songs" ==> !Truthy(data.props[k].1))
                     && data.props != [] && data.props[0].1 == JArr(list))
  {
    if data.JObj? {
      var props := data.props;
      if exists k :: 0 <= k < |props| && props[k].0 == "songs" && Truthy(props[k].1) {
        var k :| 0 <= k < |props| && props[k].0 == "songs" && Truthy(props[k].1);
        PropertyOfDistinct(props, "songs", k);
      }
    }
  }

  /** Every error a refresh can end with has a non-empty message, so it is always shown. */
  lemma RefreshErrorIsShown(outcome: GetOutcome)
    requires RefreshResult(outcome).Failure?
    ensures RefreshResult(outcome).error != ""
  {
  }

  /** The text shown above the list while `error` is set. */
  function ErrorText(error: Option<string>): (r: Option<string>)
    ensures r.Some? <==> error.Some? && error.value != ""
    ensures r.Some? ==> r.value == "Erro: " + error.value
  {
    if error.Some? && Truthy(JStr(error.value)) then Some("Erro: " + error.value) else None
  }

  /** "Carregando..." appears while loading with nothing yet to show. */
  predicate ShowsLoadingText(songs: seq<Json>, loading: bool) {
    loading && |songs| == 0
  }

  /** The empty-list text: the list is empty, nothing is loading and no error is set. */
  function ShowsEmptyText(songs: seq<Json>, loading: bool, error: Option<string>): (shown: bool)
    ensures shown <==> songs == [] && !loading && ErrorText(error).None?
  {
    songs == [] && !loading && !(error.Some? && Truthy(JStr(error.value)))
  }

  /** The loading text and the empty-list text never appear together. */
  lemma LoadingAndEmptyTextExclusive(songs: seq<Json>, loading: bool, error: Option<string>)
    ensures !(ShowsLoadingText(songs, loading) && ShowsEmptyText(songs, loading, error))
  {
  }

  /** After a settled refresh the empty-list text shows exactly when it accepted an empty list. */
  lemma EmptyTextAfterRefresh(outcome: GetOutcome)
    ensures var r := RefreshResult(outcome);
      var shown := ShowsEmptyText(if r.Success? then r.value else [], false, if r.Failure? then Some(r.error) else None);
      shown <==> r == Success([])
  {
    if RefreshResult(outcome).Failure? {
      RefreshErrorIsShown(outcome);
    }
  }

  /** The card's position label: `#` and the one-based position. */
  function PositionLabel(index: nat): (r: string)
    ensures |r| >= 2 && r[0] == '#' && AllDigits(r[1..]) && DecimalValue(r[1..]) == index + 1
    ensures r[1] != '0'
  {
    DecimalRoundTrip(index + 1);
    var r := "#" + NatToDecimal(index + 1);
    assert r[1..] == NatToDecimal(index + 1);
    r
  }

  /** Distinct positions get distinct labels. */
  lemma PositionLabelsDistinct(i: nat, j: nat)
    requires i != j
    ensures PositionLabel(i) != PositionLabel(j)
  {
  }

  /** The duration chip's text: the duration, or `00:00` when it is missing or empty. */
  function DurationLabel(duration: Option<string>): (r: string)
    ensures r != ""
    ensures duration.Some? && duration.value != "" ==> r == duration.value
    ensures duration.None? || duration == Some("") ==> r == "00:00"
  {
    if duration.Some? && Truthy(JStr(duration.value)) then duration.value else "00:00"
  }

  /** `!!item.genre`: the genre chip is shown only for a genre that is present and truthy. */
  function ShowsGenreChip(genre: Option<string>): (shown: bool)
    ensures shown <==> genre.Some? && genre.value != ""
  {
    genre.Some? && Truthy(JStr(genre.value))
  }

  /** `keyExtractor`: the id when there is one (even an empty one), otherwise `title-artist`. */
  function ListKey(id: Option<string>, title: string, artist: string): (r: string)
    ensures id.Some? ==> r == id.value
    ensures id.None? ==> |r| == |title| + 1 + |artist| && r[..|title|] == title && r[|title|] == '-' && r[|title| + 1..] == artist
  {
    match id
    case Some(i) => i
    case None => title + "-" + artist
  }

  /** The list screen's state: the list, the loading flag, the error text and the last dialog shown. */
  class ListScreen {
    var songs: seq<Json>
    var loading: bool
    var error: Option<string>
    var lastAlert: Option<Alert>

    constructor ()
      ensures songs == [] && !loading && error == None && lastAlert == None
    {
      songs := [];
      loading := false;
      error := None;
      lastAlert := None;
    }

    /** The start of `refresh`, before the request settles: loading, with no error. */
    method BeginRefresh()
      modifies this
      ensures loading && error == None
      ensures songs == old(songs) && lastAlert == old(lastAlert)
    {
      loading := true;
      error := None;
    }

    /**
      The rest of `refresh`, once the request has settled: an accepted list
      replaces `songs`; on any failure the message becomes the error and the
      dialog, and the list is emptied; `loading` ends false either way.
    */
    method CompleteRefresh(outcome: GetOutcome)
      modifies this
      ensures !loading
      ensures match RefreshResult(outcome)
        case Success(list) => songs == list && error == old(error) && lastAlert == old(lastAlert)
        case Failure(m) => songs == [] && error == Some(m) && lastAlert == Some(Alert(ErrorTitle, m))
    {
      match RefreshResult(outcome) {
        case Success(list) =>
          songs := list;
        case Failure(m) =>
          lastAlert := Some(Alert(ErrorTitle, m));
          error := Some(m);
          songs := [];
      }
      loading := false;
    }

    /** A whole refresh: on success no error is set and the list is the accepted one; on failure the reverse. */
    method Refresh(outcome: GetOutcome)
      modifies this
      ensures !loading
      ensures match RefreshResult(outcome)
        case Success(list) => songs == list && error == None && lastAlert == old(lastAlert)
        case Failure(m) => songs == [] && error == Some(m) && m != "" && lastAlert == Some(Alert(ErrorTitle, m))
    {
      BeginRefresh();
      CompleteRefresh(outcome);
      if RefreshResult(outcome).Failure? {
        RefreshErrorIsShown(outcome);
      }
    }
  }

  /**
    `{"songs": [...]}` and `{"data": [...]}` produce the same list;
    `{"error": "x"}` empties it, sets the error and shows it in a dialog.
  */
  method ShapesScenario(items: seq<Json>)
    returns (nested: seq<Json>, firstValue: seq<Json>, emptied: seq<Json>, failed: Option<string>, dialog: Option<Alert>)
    ensures nested == items && firstValue == items
    ensures emptied == [] && failed == Some(UnexpectedShapeMessage)
    ensures dialog == Some(Alert(ErrorTitle, UnexpectedShapeMessage))
  {
    var screen := new ListScreen();
    screen.Refresh(Received(JObj([("songs", JArr(items))])));
    nested := screen.songs;
    screen.Refresh(Received(JObj([("data", JArr(items))])));
    firstValue := screen.songs;
    screen.Refresh(Received(JObj([("error", JStr("x"))])));
    emptied := screen.songs;
    failed := screen.error;
    dialog := screen.lastAlert;
  }
}
