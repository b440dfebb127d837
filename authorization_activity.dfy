/**
 * The consent screen (AuthorizationActivity): the intent that opens it, the
 * scopes it offers (the client's allowed scopes that were requested, split
 * into a READ and a WRITE section, each sorted by description), the list
 * adaptor's cell arithmetic and switches, and the reply it sends back to the
 * authorization receiver, with the receiver-side dispatch of that reply.
 */
module ConsentActivity {
  import opened Wrappers
  import opened Errors
  import opened Bundles
  import opened Scopes
  import opened Sequences
  import opened ClientManagement
  import opened HandshakeWire
  import opened HandshakeServer
  import opened AuthorizationWire

  const RESULT_CODE_CONSENTED: int := 200
  const RESULT_CODE_CANCELED: int := 300
  // RESULT_CODE_ERROR is 400 here as in the handshake messages.

  const INVALID_SCOPES := AuthMalformedRequest("Invalid Scopes")
  const CONFIRM_WITHOUT_LIST := AuthorizationFailed("An error occurred")

  /**
   * Moshi's adapter for `List<ScopeRequest>`: `toJson`, and `fromJson`, which
   * gives null for the JSON literal null and throws on malformed text.
   */
  datatype ScopeJson = ScopeJson(
    toJson: seq<ScopeRequest> -> string,
    fromJson: string -> Result<Option<seq<ScopeRequest>>, Exception>)

  /** What the code relies on from the adapter: a list it wrote reads back unchanged. */
  ghost predicate LawfulJson(json: ScopeJson)
  {
    forall scopes :: json.fromJson(json.toJson(scopes)) == Ok(Some(scopes))
  }

  // ---------------------------------------------------------------------------
  // Response and ResponseReceiver

  /** `AuthorizationActivity.Response` */
  datatype ConsentResponse = ConsentResponse(clientId: string, state: int64, approvedScopes: seq<ScopeRequest>)

  /**
   * `responseFromBundle`: null without CLIENT_ID or without the SCOPES string,
   * or when the JSON is null; STATE defaults to 0; malformed JSON throws.
   */
  function ConsentResponseFromBundle(json: ScopeJson, b: Bundle): (r: Result<Option<ConsentResponse>, Exception>)
    ensures GetString(b, CLIENT_ID).None? || GetString(b, SCOPES).None? ==> r == Ok(None)
    ensures r.Ok? && r.value.Some? ==>
      GetString(b, CLIENT_ID) == Some(r.value.value.clientId) && r.value.value.state == GetLong(b, STATE, 0)
      && GetString(b, SCOPES).Some? && json.fromJson(GetString(b, SCOPES).value) == Ok(Some(r.value.value.approvedScopes))
    ensures r.Err? ==> GetString(b, SCOPES).Some? && json.fromJson(GetString(b, SCOPES).value) == Err(r.error)
  {
    match GetString(b, CLIENT_ID)
    case None => Ok(None)
    case Some(clientId) =>
      var state := GetLong(b, STATE, 0);
      match GetString(b, SCOPES)
      case None => Ok(None)
      case Some(text) =>
        match json.fromJson(text)
        case Err(e) => Err(e)
        case Ok(None) => Ok(None)
        case Ok(Some(scopes)) => Ok(Some(ConsentResponse(clientId, state, scopes)))
  }

  /** `Response.toBundle`: the approved scopes travel as one JSON string. */
  function ConsentResponseToBundle(json: ScopeJson, r: ConsentResponse): Bundle
  {
    map[CLIENT_ID := Str(r.clientId), STATE := Long(r.state), SCOPES := Str(json.toJson(r.approvedScopes))]
  }

  /** Which callback the receiver's `onReceiveResult` makes. */
  datatype ConsentDelivery = Consented(response: ConsentResponse) | Canceled | ConsentFailed(exception: Exception)

  /**
   * `ResponseReceiver.onReceiveResult` with its callback set: Err is an
   * exception from `fromJson` escaping the receiver.
   */
  function ConsentDispatch(json: ScopeJson, code: int, data: Bundle): (r: Result<ConsentDelivery, Exception>)
    ensures r.Ok? && r.value.Consented? ==> code == RESULT_CODE_CONSENTED && ConsentResponseFromBundle(json, data) == Ok(Some(r.value.response))
    ensures r.Ok? && r.value.Canceled? <==> code == RESULT_CODE_CANCELED
    ensures r.Err? ==> code == RESULT_CODE_CONSENTED
    ensures code != RESULT_CODE_CONSENTED && code != RESULT_CODE_CANCELED ==>
      r == Ok(ConsentFailed(if GetException(data, EXCEPTION).Some? then GetException(data, EXCEPTION).value else MALFORMED_RESPONSE))
  {
    if code == RESULT_CODE_CONSENTED then
      match ConsentResponseFromBundle(json, data)
      case Err(e) => Err(e)
      case Ok(Some(response)) => Ok(Consented(response))
      case Ok(None) => Ok(ConsentFailed(MALFORMED_RESPONSE))
    else if code == RESULT_CODE_CANCELED then Ok(Canceled)
    else
      match GetException(data, EXCEPTION)
      case Some(e) => Ok(ConsentFailed(e))
      case None => Ok(ConsentFailed(MALFORMED_RESPONSE))
  }

  // ---------------------------------------------------------------------------
  // newIntent

  /** `newIntent`: an explicit intent for the activity class; the requested scopes travel as JSON. */
  function ConsentIntent(json: ScopeJson, activity: ComponentName, request: AuthRequest, receiver: nat): Intent
  {
    Intent(None, Some(activity),
      map[CLIENT_ID := Str(request.clientId),
          STATE := Long(request.state),
          SCOPES := Str(json.toJson(request.scopes)),
          INCLUDE_REFRESH_TOKEN := Bool(request.includeRefreshToken),
          RESPONSE_RECEIVER := Receiver(receiver)])
  }

  // ---------------------------------------------------------------------------
  // The offered scopes

  /** `allowedScopes.filter { requested.contains(it.toScopeRequest()) }` */
  function Requested(allowed: seq<AllowedScope>, requested: seq<ScopeRequest>): (r: seq<AllowedScope>)
    ensures forall a :: a in r <==> a in allowed && ToScopeRequest(a) in requested
    ensures |r| <= |allowed|
  {
    if allowed == [] then []
    else (if ToScopeRequest(allowed[0]) in requested then [allowed[0]] else []) + Requested(allowed[1..], requested)
  }

  /** `.filter { it.access == access }` */
  function WithAccess(s: seq<AllowedScope>, access: ScopeAccess): (r: seq<AllowedScope>)
    ensures forall a :: a in r <==> a in s && a.access == access
  {
    if s == [] then []
    else (if s[0].access == access then [s[0]] else []) + WithAccess(s[1..], access)
  }

  /**
   * Kotlin's `String.compareTo(other) <= 0`: the first differing character
   * decides, and a proper prefix comes first.
   */
  predicate LexLe(x: string, y: string)
  {
    |x| == 0 || (|y| > 0 && (x[0] < y[0] || (x[0] == y[0] && LexLe(x[1..], y[1..]))))
  }

  lemma {:induction false} LexLeTotal(x: string, y: string)
    ensures LexLe(x, y) || LexLe(y, x)
  {
    if |x| > 0 && |y| > 0 && x[0] == y[0] {
      LexLeTotal(x[1..], y[1..]);
    }
  }

  predicate DescriptionLe(a: AllowedScope, b: AllowedScope)
  {
    LexLe(a.scope.description, b.scope.description)
  }

  predicate SortedByDescription(s: seq<AllowedScope>)
  {
    forall i :: 0 < i < |s| ==> DescriptionLe(s[i - 1], s[i])
  }

  /** Insert `x` before the first element it does not follow, so equal descriptions keep their order. */
  function InsertByDescription(x: AllowedScope, s: seq<AllowedScope>): (r: seq<AllowedScope>)
    requires SortedByDescription(s)
    ensures SortedByDescription(r)
    ensures multiset(r) == multiset(s) + multiset{x}
    ensures |r| == |s| + 1 && (r[0] == x || (|s| > 0 && r[0] == s[0]))
  {
    if s == [] || DescriptionLe(x, s[0]) then [x] + s
    else
      LexLeTotal(x.scope.description, s[0].scope.description);
      assert SortedByDescription(s[1..]) by {
        forall i | 0 < i < |s[1..]| ensures DescriptionLe(s[1..][i - 1], s[1..][i]) {
          assert s[1..][i - 1] == s[i] && s[1..][i] == s[i + 1];
        }
      }
      var rest := InsertByDescription(x, s[1..]);
      assert s == [s[0]] + s[1..];
      [s[0]] + rest
  }

  /** `sortedBy { it.scope.description }`, a stable sort. */
  function SortByDescription(s: seq<AllowedScope>): (r: seq<AllowedScope>)
    ensures SortedByDescription(r)
    ensures multiset(r) == multiset(s)
  {
    if s == [] then []
    else
      assert s == [s[0]] + s[1..];
      InsertByDescription(s[0], SortByDescription(s[1..]))
  }

  /** One section of the screen: the requested allowed scopes (as a set) of one access kind, by description. */
  function ScopeSection(allowed: seq<AllowedScope>, requested: seq<ScopeRequest>, access: ScopeAccess): seq<AllowedScope>
  {
    SortByDescription(WithAccess(Dedup(Requested(allowed, requested)), access))
  }

  // ---------------------------------------------------------------------------
  // onCreate and the two buttons

  datatype Sections = Sections(read: seq<AllowedScope>, write: seq<AllowedScope>)

  /** A consent screen with both buttons wired; `sections` is the adaptor, absent when the lookup failed. */
  datatype ConsentScreen = ConsentScreen(clientId: string, state: int64, receiver: nat, sections: Option<Sections>)

  /** What `onCreate` leads to. */
  datatype Launch =
    | Shown(screen: ConsentScreen, replies: seq<Reply>)  // the replies sent while creating it
    | Refused(receiver: nat, reply: Reply)                // the scopes were null: an error reply and no buttons
    | LaunchCrashed(exception: Exception)                 // an exception escapes onCreate

  /**
   * `onCreate` over the intent's extras; `lookup` is the client manager's
   * `client` call. CLIENT_ID and RESPONSE_RECEIVER are read into non-null
   * variables and a null SCOPES string reaches `fromJson`, so each of them
   * missing throws; STATE defaults to -1.
   */
  function OnCreate(json: ScopeJson, extras: Bundle, lookup: string -> ClientAnswer): (r: Launch)
    ensures r.Shown? ==>
      (GetString(extras, CLIENT_ID) == Some(r.screen.clientId)
       && GetReceiver(extras, RESPONSE_RECEIVER) == Some(r.screen.receiver)
       && r.screen.state == GetLong(extras, STATE, -1))
    ensures r.Shown? ==> forall reply :: reply in r.replies ==> reply.code == RESULT_CODE_ERROR
    ensures r.Shown? ==> (r.screen.sections.Some? <==> r.replies == [])
    ensures r.Shown? && r.screen.sections.Some? ==>
      lookup(r.screen.clientId).Answered? && lookup(r.screen.clientId).exception.None? && lookup(r.screen.clientId).client.Some?
    ensures r.Refused? ==> r.reply == ErrorReply(INVALID_SCOPES)
    ensures GetString(extras, CLIENT_ID).None? || GetReceiver(extras, RESPONSE_RECEIVER).None? || GetString(extras, SCOPES).None? ==>
      r == LaunchCrashed(NullPointer)
  {
    match GetString(extras, CLIENT_ID)
    case None => LaunchCrashed(NullPointer)
    case Some(clientId) =>
      var state := GetLong(extras, STATE, -1);
      match GetReceiver(extras, RESPONSE_RECEIVER)
      case None => LaunchCrashed(NullPointer)
      case Some(receiver) =>
        match GetString(extras, SCOPES)
        case None => LaunchCrashed(NullPointer)
        case Some(text) =>
          match json.fromJson(text)
          case Err(e) => LaunchCrashed(e)
          case Ok(None) => Refused(receiver, ErrorReply(INVALID_SCOPES))
          case Ok(Some(requested)) =>
            var screen := ConsentScreen(clientId, state, receiver, None);
            match lookup(clientId)
            case LookupThrew(e) => LaunchCrashed(e)
            case Answered(client, exception) =>
              if exception.Some? then Shown(screen, [ErrorReply(exception.value)])
              else if client.None? then Shown(screen, [ErrorReply(UnknownClient(clientId))])
              else
                var allowed := client.value.allowedScopes;
                Shown(screen.(sections := Some(Sections(ScopeSection(allowed, requested, READ), ScopeSection(allowed, requested, WRITE)))), [])
  }

  /** `approvedScopes.map { it.toScopeRequest() }` */
  function ScopeRequests(s: seq<AllowedScope>): (r: seq<ScopeRequest>)
    ensures |r| == |s| && forall i :: 0 <= i < |s| ==> r[i] == ToScopeRequest(s[i])
  {
    seq(|s|, i requires 0 <= i < |s| => ToScopeRequest(s[i]))
  }

  /** The cancel button. */
  function CancelReply(): Reply
  {
    Reply(RESULT_CODE_CANCELED, map[])
  }

  /** The confirm button, given the adaptor's approved scopes; without an adaptor it reports an error. */
  function ConfirmReply(json: ScopeJson, screen: ConsentScreen, approved: seq<AllowedScope>): Reply
  {
    match screen.sections
    case None => ErrorReply(CONFIRM_WITHOUT_LIST)
    case Some(_) =>
      Reply(RESULT_CODE_OK, ConsentResponseToBundle(json, ConsentResponse(screen.clientId, screen.state, ScopeRequests(approved))))
  }

  // ---------------------------------------------------------------------------
  // The list adaptor

  /** A row of the list: a section header or one scope. */
  datatype Cell = ReadHeader | WriteHeader | ScopeCell(scope: AllowedScope)

  function ReadCellCount(read: seq<AllowedScope>): nat
  {
    if |read| > 0 then |read| + 1 else 0
  }

  function WriteCellCount(write: seq<AllowedScope>): nat
  {
    if |write| > 0 then |write| + 1 else 0
  }

  function ReadCellHeaderIndex(read: seq<AllowedScope>): Option<nat>
  {
    if |read| > 0 then Some(0) else None
  }

  function WriteCellHeaderIndex(read: seq<AllowedScope>, write: seq<AllowedScope>): Option<nat>
  {
    if |write| > 0 then Some(ReadCellCount(read)) else None
  }

  /** `getCount` */
  function CellCount(read: seq<AllowedScope>, write: seq<AllowedScope>): nat
  {
    ReadCellCount(read) + WriteCellCount(write)
  }

  /** A header followed by one cell per scope, or nothing for an empty section. */
  function SectionCells(header: Cell, s: seq<AllowedScope>): (r: seq<Cell>)
    ensures |s| == 0 ==> r == []
    ensures |s| > 0 ==> |r| == |s| + 1 && r[0] == header && forall i :: 0 <= i < |s| ==> r[i + 1] == ScopeCell(s[i])
  {
    if |s| == 0 then [] else [header] + seq(|s|, i requires 0 <= i < |s| => ScopeCell(s[i]))
  }

  /** The list the screen is meant to show: the read section, then the write section. */
  function Layout(read: seq<AllowedScope>, write: seq<AllowedScope>): seq<Cell>
  {
    SectionCells(ReadHeader, read) + SectionCells(WriteHeader, write)
  }

  /** `readScopes[i]`, which throws outside the list. */
  function ScopeAt(s: seq<AllowedScope>, i: int): (r: Result<Cell, Exception>)
    ensures r.Ok? <==> 0 <= i < |s|
    ensures r.Ok? ==> r.value == ScopeCell(s[i])
    ensures r.Err? ==> r.error == IndexOutOfBounds
  {
    if 0 <= i < |s| then Ok(ScopeCell(s[i])) else Err(IndexOutOfBounds)
  }

  /** `getItem` as written: a position in the write section indexes the read list. */
  function GetItemAsWritten(read: seq<AllowedScope>, write: seq<AllowedScope>, position: int): Result<Cell, Exception>
  {
    if |read| > 0 && position < ReadCellCount(read) then
      if position == 0 then Ok(ReadHeader) else ScopeAt(read, position - 1)
    else
      var writePosition := position - ReadCellCount(read);
      if writePosition == 0 then Ok(WriteHeader) else ScopeAt(read, writePosition - 1)
  }

  /** `getItem` indexing the write list in the write section. */
  function GetItem(read: seq<AllowedScope>, write: seq<AllowedScope>, position: int): Result<Cell, Exception>
  {
    if |read| > 0 && position < ReadCellCount(read) then
      if position == 0 then Ok(ReadHeader) else ScopeAt(read, position - 1)
    else
      var writePosition := position - ReadCellCount(read);
      if writePosition == 0 then Ok(WriteHeader) else ScopeAt(write, writePosition - 1)
  }

  /** `readScopes.map { Pair(it, false) }.toMap()` */
  function Unchecked(s: seq<AllowedScope>): (m: map<AllowedScope, bool>)
    ensures forall a :: a in m <==> a in s
    ensures forall a :: a in m ==> !m[a]
  {
    map a | a in s :: false
  }

  /** The entries of `s` switched on in `m`, in list order (the map's key order). */
  function Checked(s: seq<AllowedScope>, m: map<AllowedScope, bool>): (r: seq<AllowedScope>)
    ensures forall a :: a in r <==> a in s && a in m && m[a]
  {
    if s == [] then []
    else (if s[0] in m && m[s[0]] then [s[0]] else []) + Checked(s[1..], m)
  }

  /** `approvedScopes`: the switched-on read scopes, then the switched-on write scopes, as a set. */
  function Approved(read: seq<AllowedScope>, write: seq<AllowedScope>, readMap: map<AllowedScope, bool>, writeMap: map<AllowedScope, bool>): (r: seq<AllowedScope>)
    ensures Distinct(r)
    ensures forall a :: a in r <==> (a in read && a in readMap && readMap[a]) || (a in write && a in writeMap && writeMap[a])
  {
    Dedup(Checked(read, readMap) + Checked(write, writeMap))
  }

  class ScopeListAdaptor {
    const readScopes: seq<AllowedScope>
    const writeScopes: seq<AllowedScope>
    var approvedRead: map<AllowedScope, bool>
    var approvedWrite: map<AllowedScope, bool>

    constructor (readScopes: seq<AllowedScope>, writeScopes: seq<AllowedScope>)
      ensures this.readScopes == readScopes && this.writeScopes == writeScopes
      ensures approvedRead == Unchecked(readScopes) && approvedWrite == Unchecked(writeScopes)
    {
      this.readScopes := readScopes;
      this.writeScopes := writeScopes;
      approvedRead := Unchecked(readScopes);
      approvedWrite := Unchecked(writeScopes);
    }

    function ApprovedScopes(): seq<AllowedScope>
      reads this
    {
      Approved(readScopes, writeScopes, approvedRead, approvedWrite)
    }

    /**
     * The switch listener of a scope row. A row's scope comes from `getItem`,
     * which only hands out entries of the two lists; a READ scope comes from
     * the read list.
     */
    method Toggle(item: AllowedScope, isChecked: bool)
      requires if item.access == READ then item in readScopes else item in writeScopes
      modifies this
      ensures approvedRead == if item.access == READ then old(approvedRead)[item := isChecked] else old(approvedRead)
      ensures approvedWrite == if item.access == READ then old(approvedWrite) else old(approvedWrite)[item := isChecked]
    {
      if item.access == READ {
        approvedRead := approvedRead[item := isChecked];
      } else {
        approvedWrite := approvedWrite[item := isChecked];
      }
    }
  }

  // ---------------------------------------------------------------------------
  // Properties

  /** A response written by `toBundle` reads back unchanged. */
  lemma ConsentResponseRoundTrip(json: ScopeJson, r: ConsentResponse)
    requires LawfulJson(json)
    ensures ConsentResponseFromBundle(json, ConsentResponseToBundle(json, r)) == Ok(Some(r))
  {
    var b := ConsentResponseToBundle(json, r);
    assert GetString(b, CLIENT_ID) == Some(r.clientId);
    assert GetString(b, SCOPES) == Some(json.toJson(r.approvedScopes));
    assert json.fromJson(json.toJson(r.approvedScopes)) == Ok(Some(r.approvedScopes));
  }

  /**
   * Each button's reply reaches the receiver as the matching callback:
   * confirm as `onConsented` with the approved scopes, cancel as
   * `onCanceled`, an error reply as `onError` with its exception.
   */
  lemma ButtonRepliesDispatch(json: ScopeJson, screen: ConsentScreen, approved: seq<AllowedScope>, e: Exception)
    requires LawfulJson(json)
    ensures var reply := ConfirmReply(json, screen, approved);
      ConsentDispatch(json, reply.code, reply.data) ==
        if screen.sections.Some? then Ok(Consented(ConsentResponse(screen.clientId, screen.state, ScopeRequests(approved))))
        else Ok(ConsentFailed(CONFIRM_WITHOUT_LIST))
    ensures ConsentDispatch(json, CancelReply().code, CancelReply().data) == Ok(Canceled)
    ensures ConsentDispatch(json, ErrorReply(e).code, ErrorReply(e).data) == Ok(ConsentFailed(e))
  {
    if screen.sections.Some? {
      ConsentResponseRoundTrip(json, ConsentResponse(screen.clientId, screen.state, ScopeRequests(approved)));
    }
  }

  /** An OK reply whose bundle lacks CLIENT_ID or SCOPES reaches `onError` as MalformedResponse. */
  lemma UnparsableConsentIsMalformed(json: ScopeJson, data: Bundle)
    requires GetString(data, CLIENT_ID).None? || GetString(data, SCOPES).None?
    ensures ConsentDispatch(json, RESULT_CODE_CONSENTED, data) == Ok(ConsentFailed(MALFORMED_RESPONSE))
  {
  }

  /**
   * A section holds exactly the client's allowed scopes of its access kind
   * that were requested, each once, sorted by description.
   */
  lemma ScopeSectionExact(allowed: seq<AllowedScope>, requested: seq<ScopeRequest>, access: ScopeAccess)
    ensures var s := ScopeSection(allowed, requested, access);
      SortedByDescription(s)
      && (forall a :: a in s <==> a in allowed && ToScopeRequest(a) in requested && a.access == access)
      && multiset(s) == multiset(WithAccess(Dedup(Requested(allowed, requested)), access))
  {
    var filtered := WithAccess(Dedup(Requested(allowed, requested)), access);
    var s := SortByDescription(filtered);
    forall a ensures a in s <==> a in filtered {
      assert a in s <==> a in multiset(s);
      assert a in filtered <==> a in multiset(filtered);
    }
  }

  /**
   * The intent `newIntent` builds opens a screen for the request's client and
   * state, whose sections are drawn from the requested scopes; an unknown or
   * failing lookup shows an error reply and no list.
   */
  lemma ConsentIntentOpensScreen(json: ScopeJson, activity: ComponentName, request: AuthRequest, receiver: nat, lookup: string -> ClientAnswer)
    requires LawfulJson(json)
    ensures var launch := OnCreate(json, ConsentIntent(json, activity, request, receiver).extras, lookup);
      match lookup(request.clientId)
      case LookupThrew(e) => launch == LaunchCrashed(e)
      case Answered(client, exception) =>
        var screen := ConsentScreen(request.clientId, request.state, receiver, None);
        if exception.Some? then launch == Shown(screen, [ErrorReply(exception.value)])
        else if client.None? then launch == Shown(screen, [ErrorReply(UnknownClient(request.clientId))])
        else launch == Shown(screen.(sections := Some(Sections(
          ScopeSection(client.value.allowedScopes, request.scopes, READ),
          ScopeSection(client.value.allowedScopes, request.scopes, WRITE)))), [])
  {
    var x := ConsentIntent(json, activity, request, receiver).extras;
    assert GetString(x, CLIENT_ID) == Some(request.clientId);
    assert GetReceiver(x, RESPONSE_RECEIVER) == Some(receiver);
    assert GetLong(x, STATE, -1) == request.state;
    assert GetString(x, SCOPES) == Some(json.toJson(request.scopes));
    assert json.fromJson(json.toJson(request.scopes)) == Ok(Some(request.scopes));
  }

  /** The sections and the cell counts agree: the header indices point at the headers, and every count matches the layout. */
  lemma LayoutMatchesCounts(read: seq<AllowedScope>, write: seq<AllowedScope>)
    ensures |Layout(read, write)| == CellCount(read, write)
    ensures ReadCellHeaderIndex(read).Some? <==> |read| > 0
    ensures ReadCellHeaderIndex(read).Some? ==> Layout(read, write)[ReadCellHeaderIndex(read).value] == ReadHeader
    ensures WriteCellHeaderIndex(read, write).Some? <==> |write| > 0
    ensures WriteCellHeaderIndex(read, write).Some? ==> Layout(read, write)[WriteCellHeaderIndex(read, write).value] == WriteHeader
  {
    if |write| > 0 {
      var l := Layout(read, write);
      assert l[ReadCellCount(read)] == SectionCells(WriteHeader, write)[0];
    }
  }

  /** Inside the list, the corrected `getItem` returns the cell the layout has at that position. */
  lemma GetItemFollowsLayout(read: seq<AllowedScope>, write: seq<AllowedScope>, position: int)
    requires 0 <= position < CellCount(read, write)
    ensures GetItem(read, write, position) == Ok(Layout(read, write)[position])
  {
    var r := SectionCells(ReadHeader, read);
    var w := SectionCells(WriteHeader, write);
    assert |r| == ReadCellCount(read);
    if position < |r| {
      assert Layout(read, write)[position] == r[position];
    } else {
      assert Layout(read, write)[position] == w[position - |r|];
    }
  }

  /** In the read section the code as written and the corrected `getItem` agree. */
  lemma GetItemAsWrittenReadSection(read: seq<AllowedScope>, write: seq<AllowedScope>, position: int)
    requires 0 <= position < ReadCellCount(read)
    ensures GetItemAsWritten(read, write, position) == GetItem(read, write, position)
    ensures GetItemAsWritten(read, write, position) == Ok(Layout(read, write)[position])
  {
    GetItemFollowsLayout(read, write, position);
  }

  /**
   * The write section as written: with one read scope `a` and one write
   * scope `b`, the write row shows `a` again; with no read scopes, the write
   * row throws.
   */
  lemma GetItemAsWrittenShowsReadScope(a: AllowedScope, b: AllowedScope)
    requires a != b
    ensures Layout([a], [b])[3] == ScopeCell(b)
    ensures GetItemAsWritten([a], [b], 3) == Ok(ScopeCell(a)) != GetItem([a], [b], 3)
    ensures Layout([], [b])[1] == ScopeCell(b)
    ensures GetItemAsWritten([], [b], 1) == Err(IndexOutOfBounds)
  {
    assert Layout([a], [b]) == [ReadHeader, ScopeCell(a), WriteHeader, ScopeCell(b)];
    assert Layout([], [b]) == [WriteHeader, ScopeCell(b)];
  }

  /** A fresh adaptor has nothing approved. */
  lemma NothingApprovedInitially(read: seq<AllowedScope>, write: seq<AllowedScope>)
    ensures Approved(read, write, Unchecked(read), Unchecked(write)) == []
  {
    NoneChecked(read, Unchecked(read));
    NoneChecked(write, Unchecked(write));
    assert Checked(read, Unchecked(read)) + Checked(write, Unchecked(write)) == [];
  }

  lemma {:induction false} NoneChecked(s: seq<AllowedScope>, m: map<AllowedScope, bool>)
    requires forall a :: a in m ==> !m[a]
    ensures Checked(s, m) == []
  {
    if s != [] {
      NoneChecked(s[1..], m);
    }
  }

  /**
   * Switching a read scope changes whether that scope is approved (unless it
   * is also a switched-on write scope) and nothing else.
   */
  lemma ToggleReadScope(read: seq<AllowedScope>, write: seq<AllowedScope>, readMap: map<AllowedScope, bool>,
                        writeMap: map<AllowedScope, bool>, item: AllowedScope, isChecked: bool)
    requires item in read
    ensures item in Approved(read, write, readMap[item := isChecked], writeMap) <==>
      isChecked || (item in write && item in writeMap && writeMap[item])
    ensures forall a :: a != item ==>
      (a in Approved(read, write, readMap[item := isChecked], writeMap) <==> a in Approved(read, write, readMap, writeMap))
  {
  }

  /** The same for a write scope. */
  lemma ToggleWriteScope(read: seq<AllowedScope>, write: seq<AllowedScope>, readMap: map<AllowedScope, bool>,
                         writeMap: map<AllowedScope, bool>, item: AllowedScope, isChecked: bool)
    requires item in write
    ensures item in Approved(read, write, readMap, writeMap[item := isChecked]) <==>
      isChecked || (item in read && item in readMap && readMap[item])
    ensures forall a :: a != item ==>
      (a in Approved(read, write, readMap, writeMap[item := isChecked]) <==> a in Approved(read, write, readMap, writeMap))
  {
    var after := Approved(read, write, readMap, writeMap[item := isChecked]);
    var before := Approved(read, write, readMap, writeMap);
    forall a | a != item
      ensures a in after <==> a in before
    {
      assert a in writeMap[item := isChecked] <==> a in writeMap;
    }
  }

  /**
   * Whatever the user switches, the approved scopes are allowed scopes of the
   * client that were requested: consent cannot widen the request.
   */
  lemma ApprovedWithinRequest(allowed: seq<AllowedScope>, requested: seq<ScopeRequest>,
                              readMap: map<AllowedScope, bool>, writeMap: map<AllowedScope, bool>)
    ensures forall a :: a in Approved(ScopeSection(allowed, requested, READ), ScopeSection(allowed, requested, WRITE), readMap, writeMap) ==>
      a in allowed && ToScopeRequest(a) in requested
  {
    ScopeSectionExact(allowed, requested, READ);
    ScopeSectionExact(allowed, requested, WRITE);
  }
}
