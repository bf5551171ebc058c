/** The Box folder resolver of box_contract_service.py: listing a folder,
    looking a file up by name, and find-or-create of a sub-folder with its
    409-conflict recovery.

    The Box SDK is not called: every reply it would give one call of the
    service (a listing, the outcome of the create request) is a parameter. */
module BoxService {
  import opened Common
  import opened Text

  /** The `type` of an entry in a Box folder listing. */
  datatype SdkType = FileType | FolderType | WebLinkType

  /** One entry of `client.folders.get_folder_items(...).entries`. */
  datatype SdkEntry = SdkEntry(id: string, name: string, sdkType: SdkType)

  /** The `'type'` value `list_folder_items` reports for an entry. */
  datatype Kind = File | Folder

  /** One dict returned by `list_folder_items`. */
  datatype Item = Item(id: string, name: string, kind: Kind)

  /** What `box_folder_create` returned. Absent or falsy dict values are "". */
  datatype CreateResult =
    | ErrorDict(error: string)
      /** A dict without an 'error' key: its 'id', its 'folder'.'id', its
          'folder_id' and its 'item'.'id', and its str(). */
    | Dict(id: string, nestedFolderId: string, folderId: string, itemId: string, shown: string)
      /** Anything that is not a dict: whether it is truthy, and its str(). */
    | NonDict(truthy: bool, shown: string)

  /** `box_folder_create` either returns or raises. */
  datatype CreateOutcome = Returned(result: CreateResult) | Raised(failure: Failure)

  /** The SDK replies one call of `find_or_create_folder` may consume: the
      first listing of the parent, the create request, the raw listing read
      after an error dict reports a conflict, and the listing read again by
      the 409 handler or by the generic handler. One call can use both of
      the last two: when the raw lookup fails, the ValueError it raises
      reaches the generic handler, which lists again when that message
      (it names the folder) holds "409" or `item_name_in_use`. */
  datatype FolderResponses = FolderResponses(
    first: Result<seq<SdkEntry>>,
    create: CreateOutcome,
    raw: Result<seq<SdkEntry>>,
    relist: Result<seq<SdkEntry>>)

  const NOT_INITIALIZED: string := "Box client not initialized. Call initialize() first."
  const MISSING_CREDENTIALS: string := "BOX_CLIENT_ID and BOX_CLIENT_SECRET must be set in .env"

  /** A folder id the service accepts: neither empty nor the text "None". */
  predicate ValidFolderId(id: string) {
    id != "" && id != "None"
  }

  /** Only entries whose SDK type is FILE are reported as files; folders and
      web links are both reported as folders. */
  function KindOf(t: SdkType): (k: Kind)
    ensures k == File <==> t == FileType
  {
    if t == FileType then File else Folder
  }

  function ItemOf(e: SdkEntry): Item {
    Item(e.id, e.name, KindOf(e.sdkType))
  }

  function ItemsOf(entries: seq<SdkEntry>): (items: seq<Item>)
    ensures |items| == |entries|
  {
    seq(|entries|, i requires 0 <= i < |entries| => ItemOf(entries[i]))
  }

  /** `list_folder_items(folder_id)` given the SDK's listing. */
  function ListingOf(connected: bool, folderId: string, listing: Result<seq<SdkEntry>>): Result<seq<Item>> {
    if !ValidFolderId(folderId) then
      Err(ValueError("Invalid folder_id: " + folderId + ". Cannot list folder items."))
    else if !connected then Err(RuntimeError(NOT_INITIALIZED))
    else match listing
      case Ok(entries) => Ok(ItemsOf(entries))
      case Err(f) => Err(f)
  }

  predicate IsFolderNamed(item: Item, name: string) {
    item.kind == Folder && item.name == name
  }

  /** The id of the first listed item that is a folder called `name`. */
  function FirstFolderItem(items: seq<Item>, name: string): (r: Option<string>)
    ensures r.None? <==> forall i :: 0 <= i < |items| ==> !IsFolderNamed(items[i], name)
    ensures r.Some? ==> exists i :: 0 <= i < |items| && IsFolderNamed(items[i], name)
                                    && r.value == items[i].id
                                    && forall j :: 0 <= j < i ==> !IsFolderNamed(items[j], name)
  {
    if items == [] then None
    else if IsFolderNamed(items[0], name) then Some(items[0].id)
    else
      var r := FirstFolderItem(items[1..], name);
      assert forall i :: 1 <= i < |items| ==> items[i] == items[1..][i - 1];
      r
  }

  predicate IsEntryNamed(e: SdkEntry, t: SdkType, name: string) {
    e.sdkType == t && e.name == name
  }

  /** The id of the first raw SDK entry of type `t` called `name`. */
  function FirstEntry(entries: seq<SdkEntry>, t: SdkType, name: string): (r: Option<string>)
    ensures r.None? <==> forall i :: 0 <= i < |entries| ==> !IsEntryNamed(entries[i], t, name)
    ensures r.Some? ==> exists i :: 0 <= i < |entries| && IsEntryNamed(entries[i], t, name)
                                    && r.value == entries[i].id
                                    && forall j :: 0 <= j < i ==> !IsEntryNamed(entries[j], t, name)
  {
    if entries == [] then None
    else if IsEntryNamed(entries[0], t, name) then Some(entries[0].id)
    else
      var r := FirstEntry(entries[1..], t, name);
      assert forall i :: 1 <= i < |entries| ==> entries[i] == entries[1..][i - 1];
      r
  }

  /** The folder id read from a create result: the first non-empty of the
      dict's 'id', 'folder'.'id', 'folder_id' and 'item'.'id', or the str()
      of a truthy non-dict result; "" when there is none. */
  function ExtractedId(result: CreateResult): string
    requires !result.ErrorDict?
  {
    match result
    case Dict(id, nested, folderId, itemId, _) =>
      if id != "" then id
      else if nested != "" then nested
      else if folderId != "" then folderId
      else itemId
    case NonDict(truthy, shown) => if truthy then shown else ""
  }

  /** The text of an error that `find_or_create_folder` reads as "the folder
      already exists". */
  predicate SignalsConflict(text: string) {
    Contains(text, "409") || Contains(Lower(text), "already exists")
  }

  /** The `try` body after `box_folder_create` returned, up to the point
      where it returns an id or raises. */
  function CreateBody(name: string, result: CreateResult, raw: Result<seq<SdkEntry>>): Result<string> {
    match result
    case ErrorDict(message) =>
      if SignalsConflict(message) then
        var lookup :=
          match raw
          case Err(f) => Err(f)
          case Ok(entries) =>
            match FirstEntry(entries, FolderType, name)
            case Some(id) => Ok(id)
            case None => Err(ValueError("Folder " + name + " exists but not found in parent folder listing"));
        match lookup
        case Ok(id) => Ok(id)
        case Err(f) => Err(ValueError("Folder " + name + " exists but could not retrieve its ID: " + f.Message()))
      else Err(ValueError("Error creating folder: " + message))
    case _ =>
      var id := ExtractedId(result);
      if id != "" then Ok(id)
      else Err(ValueError("Could not extract folder ID from result: " + result.shown))
  }

  /** The generic `except Exception` handler: an error whose text mentions a
      conflict sends the service back to the listing, and a folder found there
      is returned; in every other case the original error is raised again. */
  function Recover(connected: bool, parent: string, name: string, e: Failure, relist: Result<seq<SdkEntry>>): Result<string> {
    var text := e.Message();
    if SignalsConflict(text) || Contains(text, "item_name_in_use") then
      match ListingOf(connected, parent, relist)
      case Ok(items) =>
        (match FirstFolderItem(items, name)
         case Some(id) => Ok(id)
         case None => Err(e))
      case Err(_) => Err(e)
    else Err(e)
  }

  /** The `except BoxSDKError` handler: a 409 is resolved from the conflict's
      id, else from a fresh listing, else it becomes a ValueError; any other
      status is raised again. */
  function ResolveSdkError(connected: bool, parent: string, name: string, e: Failure, relist: Result<seq<SdkEntry>>): Result<string>
    requires e.SdkError?
  {
    if e.status != 409 then Err(e)
    else if Truthy(e.conflictId) then Ok(e.conflictId.value)
    else
      match ListingOf(connected, parent, relist)
      case Err(f) => Err(ValueError("Folder " + name + " exists but could not retrieve its ID. Error: " + f.Message()))
      case Ok(items) =>
        match FirstFolderItem(items, name)
        case Some(id) => Ok(id)
        case None => Err(ValueError("Folder " + name + " exists but could not retrieve its ID from error or listing"))
  }

  /** `find_or_create_folder(parent, name)` given the SDK's replies. */
  function ResolveFolder(connected: bool, parent: string, name: string, rs: FolderResponses): Result<string> {
    if !ValidFolderId(parent) then
      Err(ValueError("Invalid parent_folder_id: " + parent + ". Cannot find or create folder '" + name + "'."))
    else if !connected then Err(RuntimeError(NOT_INITIALIZED))
    else
      var existing :=
        match ListingOf(connected, parent, rs.first)
        case Ok(items) => FirstFolderItem(items, name)
        case Err(_) => None;
      if existing.Some? then Ok(existing.value)
      else
        match rs.create
        case Raised(e) =>
          if e.SdkError? then ResolveSdkError(connected, parent, name, e, rs.relist)
          else Recover(connected, parent, name, e, rs.relist)
        case Returned(result) =>
          match CreateBody(name, result, rs.raw)
          case Ok(id) => Ok(id)
          case Err(e) => Recover(connected, parent, name, e, rs.relist)
  }

  /** `find_file_in_folder(folder_id, filename)` given the SDK's listing:
      the first entry that is a file with exactly that name; a failing
      listing yields None. */
  function FileLookup(connected: bool, filename: string, listing: Result<seq<SdkEntry>>): Result<Option<string>> {
    if !connected then Err(RuntimeError(NOT_INITIALIZED))
    else match listing
      case Ok(entries) => Ok(FirstEntry(entries, FileType, filename))
      case Err(_) => Ok(None)
  }

  // ---------------------------------------------------------------------
  // What the resolver promises

  /** The replies of one call are consistent with the children a parent
      folder has once the call is over: every listing shows only children,
      the id a 409 conflict names is a child called `name`, and the id read
      from a successful create is a folder called `name`. */
  predicate ListsOnly(listing: Result<seq<SdkEntry>>, children: seq<SdkEntry>) {
    listing.Ok? ==> forall e :: e in listing.value ==> e in children
  }

  predicate AgreesWith(rs: FolderResponses, name: string, children: seq<SdkEntry>) {
    && ListsOnly(rs.first, children)
    && ListsOnly(rs.raw, children)
    && ListsOnly(rs.relist, children)
    && (rs.create.Raised? && rs.create.failure.SdkError? && Truthy(rs.create.failure.conflictId)
        ==> exists e :: e in children && e.name == name && e.id == rs.create.failure.conflictId.value)
    && (rs.create.Returned? && !rs.create.result.ErrorDict? && ExtractedId(rs.create.result) != ""
        ==> exists e :: e in children && IsEntryNamed(e, FolderType, name) && e.id == ExtractedId(rs.create.result))
  }

  lemma FirstFolderItemIsChild(entries: seq<SdkEntry>, name: string, children: seq<SdkEntry>)
    requires forall e :: e in entries ==> e in children
    requires FirstFolderItem(ItemsOf(entries), name).Some?
    ensures exists e :: e in children && e.name == name && e.id == FirstFolderItem(ItemsOf(entries), name).value
  {
    var items := ItemsOf(entries);
    var i :| 0 <= i < |items| && IsFolderNamed(items[i], name)
             && FirstFolderItem(items, name).value == items[i].id;
    assert items[i] == ItemOf(entries[i]);
    assert entries[i] in children;
  }

  lemma FirstEntryIsChild(entries: seq<SdkEntry>, t: SdkType, name: string, children: seq<SdkEntry>)
    requires forall e :: e in entries ==> e in children
    requires FirstEntry(entries, t, name).Some?
    ensures exists e :: e in children && IsEntryNamed(e, t, name) && e.id == FirstEntry(entries, t, name).value
  {
    var i :| 0 <= i < |entries| && IsEntryNamed(entries[i], t, name)
             && FirstEntry(entries, t, name).value == entries[i].id;
    assert entries[i] in children;
  }

  lemma {:induction false} RecoverIsChild(parent: string, name: string, e: Failure, rs: FolderResponses, children: seq<SdkEntry>)
    requires ValidFolderId(parent) && AgreesWith(rs, name, children)
    requires Recover(true, parent, name, e, rs.relist).Ok?
    ensures exists c :: c in children && c.name == name && c.id == Recover(true, parent, name, e, rs.relist).value
  {
    FirstFolderItemIsChild(rs.relist.value, name, children);
  }

  /** Whatever way `find_or_create_folder` succeeds, the id it returns is
      that of a child of `parent` called `name`: it never invents an id.
      The child may be a web link, since listings report web links as
      folders, or whatever a 409 conflict names. */
  lemma {:induction false} ResolvedIdIsChild(parent: string, name: string, rs: FolderResponses, children: seq<SdkEntry>)
    requires AgreesWith(rs, name, children)
    requires ResolveFolder(true, parent, name, rs).Ok?
    ensures exists c :: c in children && c.name == name && c.id == ResolveFolder(true, parent, name, rs).value
  {
    var r := ResolveFolder(true, parent, name, rs);
    if rs.first.Ok? && FirstFolderItem(ItemsOf(rs.first.value), name).Some? {
      FirstFolderItemIsChild(rs.first.value, name, children);
    } else {
      match rs.create
      case Raised(e) =>
        if e.SdkError? {
          if e.status == 409 && !Truthy(e.conflictId) {
            FirstFolderItemIsChild(rs.relist.value, name, children);
          }
        } else {
          RecoverIsChild(parent, name, e, rs, children);
        }
      case Returned(result) =>
        var body := CreateBody(name, result, rs.raw);
        if body.Ok? {
          if result.ErrorDict? {
            FirstEntryIsChild(rs.raw.value, FolderType, name, children);
            var c :| c in children && IsEntryNamed(c, FolderType, name) && c.id == FirstEntry(rs.raw.value, FolderType, name).value;
            assert c.name == name;
          } else {
            var c :| c in children && IsEntryNamed(c, FolderType, name) && c.id == ExtractedId(result);
            assert c.name == name;
          }
        } else {
          RecoverIsChild(parent, name, body.failure, rs, children);
        }
    }
  }

  /** A folder that the first listing shows is returned as it is, whatever
      the create request and later listings would have answered: no folder
      is created when one exists. */
  lemma ExistingFolderReused(parent: string, name: string, rs: FolderResponses, other: FolderResponses, entries: seq<SdkEntry>, i: int)
    requires ValidFolderId(parent)
    requires rs.first == Ok(entries) && other.first == rs.first
    requires 0 <= i < |entries| && entries[i].sdkType == FolderType && entries[i].name == name
    requires forall j :: 0 <= j < i ==> !(entries[j].sdkType != FileType && entries[j].name == name)
    ensures ResolveFolder(true, parent, name, rs) == ResolveFolder(true, parent, name, other) == Ok(entries[i].id)
  {
    var items := ItemsOf(entries);
    assert items[i] == ItemOf(entries[i]);
    assert IsFolderNamed(items[i], name);
    var k :| 0 <= k < |items| && IsFolderNamed(items[k], name)
             && FirstFolderItem(items, name).value == items[k].id
             && forall j :: 0 <= j < k ==> !IsFolderNamed(items[j], name);
    assert items[k] == ItemOf(entries[k]);
    assert IsFolderNamed(items[k], name);
    assert items[k].kind == KindOf(entries[k].sdkType);
    assert items[k].kind == Folder;
    assert entries[k].sdkType != FileType;
    assert entries[k].name == name;
  }

  /** When nothing was found by the first listing: a created folder's
      non-empty id is returned, a create result without one raises
      ValueError (unless the generic handler's listing finds the folder),
      a 409 with a conflict id returns that id, and any other SDK error
      reaches the caller unchanged. */
  lemma CreateOutcomes(parent: string, name: string, rs: FolderResponses)
    requires ValidFolderId(parent)
    requires rs.first.Err? || FirstFolderItem(ItemsOf(rs.first.value), name).None?
    ensures rs.create.Returned? && !rs.create.result.ErrorDict? && ExtractedId(rs.create.result) != ""
            ==> ResolveFolder(true, parent, name, rs) == Ok(ExtractedId(rs.create.result))
    ensures rs.create.Returned? && !rs.create.result.ErrorDict? && ExtractedId(rs.create.result) == ""
            && (rs.relist.Err? || FirstFolderItem(ItemsOf(rs.relist.value), name).None?)
            ==> ResolveFolder(true, parent, name, rs)
                == Err(ValueError("Could not extract folder ID from result: " + rs.create.result.shown))
    ensures rs.create.Raised? && rs.create.failure.SdkError? && rs.create.failure.status == 409
            && Truthy(rs.create.failure.conflictId)
            ==> ResolveFolder(true, parent, name, rs) == Ok(rs.create.failure.conflictId.value)
    ensures rs.create.Raised? && rs.create.failure.SdkError? && rs.create.failure.status != 409
            ==> ResolveFolder(true, parent, name, rs) == Err(rs.create.failure)
  {
  }

  /** A 409 that names no id and cannot be resolved by listing the parent
      ends in ValueError, never in a made-up id. */
  lemma UnresolvedConflictRaises(parent: string, name: string, rs: FolderResponses)
    requires ValidFolderId(parent)
    requires rs.first.Err? || FirstFolderItem(ItemsOf(rs.first.value), name).None?
    requires rs.create.Raised? && rs.create.failure.SdkError? && rs.create.failure.status == 409
    requires !Truthy(rs.create.failure.conflictId)
    requires rs.relist.Err? || FirstFolderItem(ItemsOf(rs.relist.value), name).None?
    ensures ResolveFolder(true, parent, name, rs).Err?
    ensures ResolveFolder(true, parent, name, rs).failure.ValueError?
  {
  }

  /** The guards run before the SDK is touched: a bad parent id is a
      ValueError and a service that was never initialised a RuntimeError,
      whatever the replies would have been. */
  lemma GuardsComeFirst(connected: bool, parent: string, name: string, rs: FolderResponses, other: FolderResponses)
    requires !ValidFolderId(parent) || !connected
    ensures ResolveFolder(connected, parent, name, rs) == ResolveFolder(connected, parent, name, other)
    ensures !ValidFolderId(parent) ==> ResolveFolder(connected, parent, name, rs).failure.ValueError?
    ensures ValidFolderId(parent) ==> ResolveFolder(connected, parent, name, rs) == Err(RuntimeError(NOT_INITIALIZED))
  {
  }

  // ---------------------------------------------------------------------
  // The service object

  class BoxContractService {
    /** Whether `self.client` is set. */
    var connected: bool

    constructor()
      ensures !connected
    {
      connected := false;
    }

    /** `initialize()`: missing credentials raise ValueError; otherwise the
        OAuth client is built, unless building it fails (`oauthFailure`). */
    method Initialize(clientId: string, clientSecret: string, oauthFailure: Option<Failure>) returns (r: Result<()>)
      modifies this
      ensures clientId == "" || clientSecret == "" ==> r == Err(ValueError(MISSING_CREDENTIALS)) && connected == old(connected)
      ensures clientId != "" && clientSecret != "" && oauthFailure.Some?
              ==> r == Err(oauthFailure.value) && connected == old(connected)
      ensures clientId != "" && clientSecret != "" && oauthFailure.None? ==> r == Ok(()) && connected
    {
      if clientId == "" || clientSecret == "" {
        return Err(ValueError(MISSING_CREDENTIALS));
      }
      if oauthFailure.Some? {
        return Err(oauthFailure.value);
      }
      connected := true;
      r := Ok(());
    }

    /** `list_folder_items(folder_id)`. */
    method ListFolderItems(folderId: string, listing: Result<seq<SdkEntry>>) returns (r: Result<seq<Item>>)
      ensures r == ListingOf(connected, folderId, listing)
    {
      if !ValidFolderId(folderId) {
        return Err(ValueError("Invalid folder_id: " + folderId + ". Cannot list folder items."));
      }
      if !connected {
        return Err(RuntimeError(NOT_INITIALIZED));
      }
      if listing.Err? {
        return Err(listing.failure);
      }
      var entries := listing.value;
      var items: seq<Item> := [];
      var i := 0;
      while i < |entries|
        invariant 0 <= i <= |entries|
        invariant items == ItemsOf(entries[..i])
      {
        var kind := if entries[i].sdkType == FileType then File else Folder;
        items := items + [Item(entries[i].id, entries[i].name, kind)];
        i := i + 1;
      }
      assert entries[..i] == entries;
      r := Ok(items);
    }

    /** `find_file_in_folder(folder_id, filename)`. */
    method FindFileInFolder(folderId: string, filename: string, listing: Result<seq<SdkEntry>>) returns (r: Result<Option<string>>)
      ensures r == FileLookup(connected, filename, listing)
    {
      if !connected {
        return Err(RuntimeError(NOT_INITIALIZED));
      }
      if listing.Err? {
        return Ok(None);
      }
      var found := FindEntry(listing.value, FileType, filename);
      r := Ok(found);
    }

    /** `find_or_create_folder(parent_folder_id, folder_name)`. */
    method FindOrCreateFolder(parent: string, name: string, rs: FolderResponses) returns (r: Result<string>)
      ensures r == ResolveFolder(connected, parent, name, rs)
    {
      if !ValidFolderId(parent) {
        return Err(ValueError("Invalid parent_folder_id: " + parent + ". Cannot find or create folder '" + name + "'."));
      }
      if !connected {
        return Err(RuntimeError(NOT_INITIALIZED));
      }
      var listed := ListFolderItems(parent, rs.first);
      if listed.Ok? {
        var existing := FindFolderItem(listed.value, name);
        if existing.Some? {
          return Ok(existing.value);
        }
      }
      match rs.create {
        case Raised(e) =>
          if e.SdkError? {
            r := ResolveConflict(parent, name, e, rs.relist);
          } else {
            r := RecoverFromError(parent, name, e, rs.relist);
          }
        case Returned(result) =>
          var body := UseCreateResult(name, result, rs.raw);
          if body.Ok? {
            r := body;
          } else {
            r := RecoverFromError(parent, name, body.failure, rs.relist);
          }
      }
    }

    /** The `except BoxSDKError` branch. */
    method ResolveConflict(parent: string, name: string, e: Failure, relist: Result<seq<SdkEntry>>) returns (r: Result<string>)
      requires e.SdkError?
      ensures r == ResolveSdkError(connected, parent, name, e, relist)
    {
      if e.status != 409 {
        return Err(e);
      }
      if Truthy(e.conflictId) {
        return Ok(e.conflictId.value);
      }
      var listed := ListFolderItems(parent, relist);
      if listed.Err? {
        return Err(ValueError("Folder " + name + " exists but could not retrieve its ID. Error: " + listed.failure.Message()));
      }
      var found := FindFolderItem(listed.value, name);
      if found.Some? {
        return Ok(found.value);
      }
      r := Err(ValueError("Folder " + name + " exists but could not retrieve its ID from error or listing"));
    }

    /** The generic `except Exception` branch. */
    method RecoverFromError(parent: string, name: string, e: Failure, relist: Result<seq<SdkEntry>>) returns (r: Result<string>)
      ensures r == Recover(connected, parent, name, e, relist)
    {
      var text := e.Message();
      r := Err(e);
      if SignalsConflict(text) || Contains(text, "item_name_in_use") {
        var listed := ListFolderItems(parent, relist);
        if listed.Ok? {
          var found := FindFolderItem(listed.value, name);
          if found.Some? {
            r := Ok(found.value);
          }
        }
      }
    }
  }

  /** The `try` body after `box_folder_create` returned. */
  method UseCreateResult(name: string, result: CreateResult, raw: Result<seq<SdkEntry>>) returns (r: Result<string>)
    ensures r == CreateBody(name, result, raw)
  {
    if result.ErrorDict? {
      if SignalsConflict(result.error) {
        var lookup: Result<string>;
        if raw.Err? {
          lookup := Err(raw.failure);
        } else {
          var found := FindEntry(raw.value, FolderType, name);
          if found.Some? {
            return Ok(found.value);
          }
          lookup := Err(ValueError("Folder " + name + " exists but not found in parent folder listing"));
        }
        return Err(ValueError("Folder " + name + " exists but could not retrieve its ID: " + lookup.failure.Message()));
      }
      return Err(ValueError("Error creating folder: " + result.error));
    }
    var id: string;
    if result.Dict? {
      id := result.id;
      if id == "" { id := result.nestedFolderId; }
      if id == "" { id := result.folderId; }
      if id == "" { id := result.itemId; }
    } else {
      id := if result.truthy then result.shown else "";
    }
    if id != "" {
      return Ok(id);
    }
    r := Err(ValueError("Could not extract folder ID from result: " + result.shown));
  }

  /** The loop over listed items that looks for a folder called `name`. */
  method FindFolderItem(items: seq<Item>, name: string) returns (found: Option<string>)
    ensures found == FirstFolderItem(items, name)
  {
    var i := 0;
    while i < |items|
      invariant 0 <= i <= |items|
      invariant FirstFolderItem(items[i..], name) == FirstFolderItem(items, name)
    {
      if items[i].kind == Folder && items[i].name == name {
        return Some(items[i].id);
      }
      assert items[i..][1..] == items[i + 1..];
      i := i + 1;
    }
    found := None;
  }

  /** The loop over raw SDK entries that looks for an entry of type `t`
      called `name`. */
  method FindEntry(entries: seq<SdkEntry>, t: SdkType, name: string) returns (found: Option<string>)
    ensures found == FirstEntry(entries, t, name)
  {
    var i := 0;
    while i < |entries|
      invariant 0 <= i <= |entries|
      invariant FirstEntry(entries[i..], t, name) == FirstEntry(entries, t, name)
    {
      if entries[i].sdkType == t && entries[i].name == name {
        return Some(entries[i].id);
      }
      assert entries[i..][1..] == entries[i + 1..];
      i := i + 1;
    }
    found := None;
  }
}
