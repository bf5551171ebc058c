/** The `ContractProcessor` object of contract_processor.py: it sets up the
    Box folders, discovers new contracts in the intake folder, turns each
    into three deliverables in a mirror folder, sweeps the contracts for
    urgent action items, and drives both from a polling loop.

    Everything the processor learns from outside (Box listings and file
    contents, the model's replies, the outcome of folder creation and of
    uploads) is a parameter. */
module Processor {
  import opened Common
  import opened Text
  import opened Calendar
  import opened BoxService
  import opened ActionItems
  import opened ContractRules

  /** What the model is asked about a file: its category, one of the three
      deliverables (numbered from 1, built on the analysis prompt), or its
      action items. */
  datatype Question =
    | Classification
    | Deliverable(number: nat, prompt: seq<PromptSection>)
    | FindActionItems

  /** The outside world: what listing a folder gives (by folder id), what
      reading a file gives (by file id), what the model replies, what
      `find_or_create_folder` meets for a parent and a name, and whether
      uploading a file of a given name into a folder raises. */
  datatype Services = Services(
    listing: string -> Result<seq<SdkEntry>>,
    read: string -> Result<string>,
    ask: (string, Question) -> Result<string>,
    folders: (string, string) -> FolderResponses,
    upload: (string, string) -> Option<Failure>)

  /** One call of `upload_text_file(folder_id, file_name, content)`. */
  datatype Upload = Upload(folderId: string, fileName: string, content: Artifact)

  /** What `process_contract` uploaded before it returned or raised. */
  datatype ContractOutcome = ContractOutcome(uploads: seq<Upload>, result: Result<()>)

  const NO_CONTRACTS_FOLDER: string := "'ContractProcessor' object has no attribute 'contracts_folder_id'"

  // ---------------------------------------------------------------------
  // Specification functions

  /** `get_user_interests()` and `get_per_contract_instructions(name)`: the
      text of the first file called `fileName` in the folder; None when there
      is none, when the folder id was never set, or when anything raises. */
  function LoadText(connected: bool, folderId: Option<string>, fileName: string, s: Services): Option<string> {
    if folderId.None? then None
    else
      match FileLookup(connected, fileName, s.listing(folderId.value))
      case Err(_) => None
      case Ok(found) =>
        if !Truthy(found) then None
        else
          match s.read(found.value)
          case Ok(text) => Some(text)
          case Err(_) => None
  }

  /** A loaded text is the content of a file of exactly that name listed in
      that folder. */
  lemma LoadedTextIsStored(connected: bool, folderId: Option<string>, fileName: string, s: Services)
    requires LoadText(connected, folderId, fileName, s).Some?
    ensures connected && folderId.Some? && s.listing(folderId.value).Ok?
    ensures exists e :: e in s.listing(folderId.value).value && IsEntryNamed(e, FileType, fileName)
                        && e.id != "" && s.read(e.id) == Ok(LoadText(connected, folderId, fileName, s).value)
  {
    var entries := s.listing(folderId.value).value;
    FirstEntryIsChild(entries, FileType, fileName, entries);
  }

  /** `d.get(key)` for a dict given as its (key, value) pairs in insertion order. */
  function Lookup(pairs: seq<(string, string)>, key: string): (r: Option<string>)
    ensures r.Some? ==> exists k :: 0 <= k < |pairs| && pairs[k] == (key, r.value)
                                    && forall j :: 0 <= j < k ==> pairs[j].0 != key
    ensures r.None? ==> forall k :: 0 <= k < |pairs| ==> pairs[k].0 != key
  {
    if pairs == [] then None
    else if pairs[0].0 == key then Some(pairs[0].1)
    else
      var r := Lookup(pairs[1..], key);
      assert forall k :: 1 <= k < |pairs| ==> pairs[k] == pairs[1..][k - 1];
      r
  }

  /** The category dict is filled in category order. */
  predicate CategoryPairs(ids: seq<(string, string)>) {
    PairsNamedAfter(ids, CATEGORIES)
  }

  /** The keys of `ids` are a prefix of `names`. */
  predicate PairsNamedAfter(ids: seq<(string, string)>, names: seq<string>) {
    |ids| <= |names| && forall k :: 0 <= k < |ids| ==> ids[k].0 == names[k]
  }

  /** The category folder `process_contract` uses: the category's own
      folder, or when that is missing or empty the dict's first value; an
      empty dict raises IndexError. */
  function CategoryFolderFor(ids: seq<(string, string)>, category: string): Result<string> {
    var own := Lookup(ids, category);
    if own.Some? && own.value != "" then Ok(own.value)
    else if ids != [] then Ok(ids[0].1)
    else Err(IndexError)
  }

  /** With the dict filled in category order, a category uses its own folder
      whenever that has a non-empty id, and the first category's otherwise. */
  lemma CategoryFolderChoice(ids: seq<(string, string)>, i: nat)
    requires CategoryPairs(ids) && i < |CATEGORIES|
    ensures i < |ids| && ids[i].1 != "" ==> CategoryFolderFor(ids, CATEGORIES[i]) == Ok(ids[i].1)
    ensures !(i < |ids| && ids[i].1 != "") && ids != [] ==> CategoryFolderFor(ids, CATEGORIES[i]) == Ok(ids[0].1)
    ensures ids == [] <==> CategoryFolderFor(ids, CATEGORIES[i]).Err?
  {
    var own := Lookup(ids, CATEGORIES[i]);
    if own.Some? {
      var k :| 0 <= k < |ids| && ids[k] == (CATEGORIES[i], own.value)
               && forall j :: 0 <= j < k ==> ids[j].0 != CATEGORIES[i];
      if k != i {
        CategoriesDistinct(k, i);
      }
    }
  }

  /** The three uploads of `_upload_output_files`, in order, stopping at the
      first that raises. */
  function UploadAll(folderId: string, docs: seq<Artifact>, s: Services): (o: ContractOutcome)
    requires |docs| == |OUTPUT_FILE_NAMES|
    ensures |o.uploads| <= |OUTPUT_FILE_NAMES|
    ensures o.result.Ok? <==> |o.uploads| == |OUTPUT_FILE_NAMES|
    ensures forall k :: 0 <= k < |o.uploads| ==> o.uploads[k] == Upload(folderId, OUTPUT_FILE_NAMES[k], docs[k])
    ensures o.result.Err? ==> s.upload(folderId, OUTPUT_FILE_NAMES[|o.uploads|]) == Some(o.result.failure)
  {
    var u0 := Upload(folderId, OUTPUT_FILE_NAMES[0], docs[0]);
    var u1 := Upload(folderId, OUTPUT_FILE_NAMES[1], docs[1]);
    var u2 := Upload(folderId, OUTPUT_FILE_NAMES[2], docs[2]);
    if s.upload(folderId, OUTPUT_FILE_NAMES[0]).Some? then ContractOutcome([], Err(s.upload(folderId, OUTPUT_FILE_NAMES[0]).value))
    else if s.upload(folderId, OUTPUT_FILE_NAMES[1]).Some? then ContractOutcome([u0], Err(s.upload(folderId, OUTPUT_FILE_NAMES[1]).value))
    else if s.upload(folderId, OUTPUT_FILE_NAMES[2]).Some? then ContractOutcome([u0, u1], Err(s.upload(folderId, OUTPUT_FILE_NAMES[2]).value))
    else ContractOutcome([u0, u1, u2], Ok(()))
  }

  /** The three deliverables `_generate_protected_contract` produces. */
  function Documents(fileId: string, text: string, interests: Option<string>, instructions: Option<string>,
                     category: string, s: Services): (docs: seq<Artifact>)
    ensures |docs| == |OUTPUT_FILE_NAMES|
  {
    var prompt := AnalysisPrompt(text, interests, instructions, category);
    Deliverables(s.ask(fileId, Deliverable(1, prompt)), s.ask(fileId, Deliverable(2, prompt)),
                 s.ask(fileId, Deliverable(3, prompt)), text, category, interests)
  }

  /** `process_contract(file_id, filename, name)` given the processor's
      folder ids and whether the Box client is connected. */
  function ContractRun(connected: bool, categoryIds: seq<(string, string)>, contractsId: Option<string>,
                       interestsId: Option<string>, fileId: string, contractName: string, s: Services): (o: ContractOutcome)
    ensures |o.uploads| <= |OUTPUT_FILE_NAMES|
    ensures o.result.Ok? <==> |o.uploads| == |OUTPUT_FILE_NAMES|
    ensures forall k :: 0 <= k < |o.uploads| ==> o.uploads[k].fileName == OUTPUT_FILE_NAMES[k]
                                                 && o.uploads[k].folderId == o.uploads[0].folderId
    ensures !connected ==> o == ContractOutcome([], Err(RuntimeError(NOT_INITIALIZED)))
  {
    if !connected then ContractOutcome([], Err(RuntimeError(NOT_INITIALIZED)))
    else match s.read(fileId)
    case Err(e) => ContractOutcome([], Err(e))
    case Ok(text) =>
      var category := Classify(s.ask(fileId, Classification));
      var interests := LoadText(connected, interestsId, MY_INTERESTS_FILE, s);
      var instructions := LoadText(connected, contractsId, InstructionsFileName(contractName), s);
      match CategoryFolderFor(categoryIds, category)
      case Err(e) => ContractOutcome([], Err(e))
      case Ok(categoryId) =>
        var mirrorName := contractName + MIRROR_SUFFIX;
        match ResolveFolder(connected, categoryId, mirrorName, s.folders(categoryId, mirrorName))
        case Err(e) => ContractOutcome([], Err(e))
        case Ok(mirrorId) =>
          UploadAll(mirrorId, Documents(fileId, text, interests, instructions, category, s), s)
  }

  /** Every upload lands in a child folder `<name>_mirror` of the folder of
      the contract's category, provided the folder replies agree with what
      that folder holds; nothing is uploaded unless the contract was read. */
  lemma UploadsGoToMirrorFolder(categoryIds: seq<(string, string)>, contractsId: Option<string>, interestsId: Option<string>,
                                fileId: string, contractName: string, s: Services, children: seq<SdkEntry>)
    requires ContractRun(true, categoryIds, contractsId, interestsId, fileId, contractName, s).uploads != []
    requires var folder := CategoryFolderFor(categoryIds, Classify(s.ask(fileId, Classification)));
             folder.Ok? ==> AgreesWith(s.folders(folder.value, contractName + MIRROR_SUFFIX), contractName + MIRROR_SUFFIX, children)
    ensures s.read(fileId).Ok?
    ensures CategoryFolderFor(categoryIds, Classify(s.ask(fileId, Classification))).Ok?
    ensures exists c :: c in children && c.name == contractName + MIRROR_SUFFIX
                        && c.id == ContractRun(true, categoryIds, contractsId, interestsId, fileId, contractName, s).uploads[0].folderId
  {
    var folder := CategoryFolderFor(categoryIds, Classify(s.ask(fileId, Classification))).value;
    var mirrorName := contractName + MIRROR_SUFFIX;
    ResolvedIdIsChild(folder, mirrorName, s.folders(folder, mirrorName), children);
  }

  /** Each uploaded deliverable is the model's text when the model answered,
      and otherwise a placeholder that still names the category: a failing
      model call never stops the upload. */
  lemma DeliverablesUploaded(folderId: string, fileId: string, text: string, interests: Option<string>,
                             instructions: Option<string>, category: string, s: Services, k: nat)
    requires k < |UploadAll(folderId, Documents(fileId, text, interests, instructions, category, s), s).uploads|
    ensures var content := UploadAll(folderId, Documents(fileId, text, interests, instructions, category, s), s).uploads[k].content;
            var reply := s.ask(fileId, Deliverable(k + 1, AnalysisPrompt(text, interests, instructions, category)));
            && (reply.Ok? ==> content == Generated(reply.value))
            && (reply.Err? ==> !content.Generated? && content.category == category)
  {
  }

  /** The listing of the contracts folder a pass sees: AttributeError when
      the folder was never set up. */
  function IntakeListing(folderId: Option<string>, connected: bool, intake: Result<seq<SdkEntry>>): Result<seq<Item>> {
    if folderId.None? then Err(AttributeError(NO_CONTRACTS_FOLDER))
    else ListingOf(connected, folderId.value, intake)
  }

  /** The listings of the first `n` passes, where `intake(p)` is what Box
      holds on pass `p` (from 1). */
  function Intakes(folderId: Option<string>, connected: bool, intake: nat -> Result<seq<SdkEntry>>, n: nat): (r: seq<Result<seq<Item>>>)
    ensures |r| == n
  {
    if n == 0 then [] else Intakes(folderId, connected, intake, n - 1) + [IntakeListing(folderId, connected, intake(n))]
  }

  /** The action items one listed entry contributes to a sweep. */
  function ContractActionItems(item: Item, s: Services, now: Instant, extract: string -> Captures): (r: seq<ActionItem>)
    requires ValidInstant(now)
    ensures forall x :: x in r ==> x.contract == item.name
  {
    if item.kind != File || !IsContractFile(item.name) then []
    else
      match s.read(item.id)
      case Err(_) => []
      case Ok(_) =>
        match s.ask(item.id, FindActionItems)
        case Err(_) => []
        case Ok(reply) =>
          ParsedItems(reply, item.name, now, extract)
  }

  /** The action items a sweep collects, in listing order. */
  function SweepItems(items: seq<Item>, s: Services, now: Instant, extract: string -> Captures): seq<ActionItem>
    requires ValidInstant(now)
  {
    if items == [] then []
    else SweepItems(items[..|items| - 1], s, now, extract) + ContractActionItems(items[|items| - 1], s, now, extract)
  }

  /** Every item a sweep collects names a contract file of the listing. */
  lemma {:induction false} SweptItemsNameTheirContract(items: seq<Item>, s: Services, now: Instant, extract: string -> Captures, x: ActionItem)
    requires ValidInstant(now)
    requires x in SweepItems(items, s, now, extract)
    ensures exists item :: item in items && item.kind == File && IsContractFile(item.name) && x.contract == item.name
    decreases |items|
  {
    var last := items[|items| - 1];
    var init := items[..|items| - 1];
    if x in SweepItems(init, s, now, extract) {
      SweptItemsNameTheirContract(init, s, now, extract, x);
      var item :| item in init && item.kind == File && IsContractFile(item.name) && x.contract == item.name;
      assert item in items;
    } else {
      assert x in ContractActionItems(last, s, now, extract);
      assert last in items;
    }
  }

  /** An alert only ever names urgent items found in contract files of the
      listing. */
  lemma UrgentItemsComeFromContracts(items: seq<Item>, s: Services, now: Instant, extract: string -> Captures, x: ActionItem)
    requires ValidInstant(now)
    requires x in UrgentItems(SweepItems(items, s, now, extract))
    ensures IsUrgent(x)
    ensures exists item :: item in items && item.kind == File && IsContractFile(item.name) && x.contract == item.name
  {
    UrgentMembership(SweepItems(items, s, now, extract), x);
    SweptItemsNameTheirContract(items, s, now, extract, x);
  }

  /** The category loop of `_ensure_folders_exist` over the category
      names `names`: the (category, id) pairs recorded for the first `n`
      names before a call raised, and what it raised. */
  function CategoryLoop(names: seq<string>, connected: bool, protect: string, s: Services, n: nat): (r: (seq<(string, string)>, Option<Failure>))
    requires n <= |names|
    ensures |r.0| <= n && (r.1.None? ==> |r.0| == n) && (r.1.Some? ==> |r.0| < n) && PairsNamedAfter(r.0, names)
    ensures forall k :: 0 <= k < |r.0| ==>
              ResolveFolder(connected, protect, names[k], s.folders(protect, names[k])) == Ok(r.0[k].1)
    ensures r.1.Some? ==>
              ResolveFolder(connected, protect, names[|r.0|], s.folders(protect, names[|r.0|])) == Err(r.1.value)
  {
    if n == 0 then ([], None)
    else
      var prev := CategoryLoop(names, connected, protect, s, n - 1);
      if prev.1.Some? then prev
      else
        match ResolveFolder(connected, protect, names[n - 1], s.folders(protect, names[n - 1]))
        case Ok(id) => (prev.0 + [(names[n - 1], id)], None)
        case Err(e) => (prev.0, Some(e))
  }

  /** Each recorded category folder is a child of the protect folder with the
      category's name, when the replies agree with what that folder holds. */
  lemma CategoryFoldersAreChildren(protect: string, s: Services, children: seq<SdkEntry>, k: nat)
    requires forall c :: c in CATEGORIES ==> AgreesWith(s.folders(protect, c), c, children)
    requires k < |CategoryLoop(CATEGORIES, true, protect, s, |CATEGORIES|).0|
    ensures exists e :: e in children && e.name == CATEGORIES[k] && e.id == CategoryLoop(CATEGORIES, true, protect, s, |CATEGORIES|).0[k].1
  {
    ResolvedIdIsChild(protect, CATEGORIES[k], s.folders(protect, CATEGORIES[k]), children);
  }

  // ---------------------------------------------------------------------
  // The processor object

  class ContractProcessor {
    const box: BoxContractService
    const detector: ActionItemDetector
    /** The ledger `processed_contracts` of contract keys. */
    var processedContracts: set<string>
    /** `category_folder_ids`, as its (category, id) pairs in insertion order. */
    var categoryFolderIds: seq<(string, string)>
    /** The folder attributes, None until `_ensure_folders_exist` completes. */
    var contractsFolderId: Option<string>
    var protectFolderId: Option<string>
    var interestsFolderId: Option<string>

    /** `__init__`: a fresh Box service, and a detector that is handed it. */
    constructor(envTopicArn: Option<string>, envUserEmail: Option<string>, snsClientFails: bool)
      ensures fresh(box) && fresh(detector) && !box.connected
      ensures detector.hasBoxService && detector.snsReady == !snsClientFails
      ensures detector.snsTopicArn == envTopicArn && detector.userEmail == envUserEmail
      ensures processedContracts == {} && categoryFolderIds == []
      ensures contractsFolderId.None? && protectFolderId.None? && interestsFolderId.None?
    {
      box := new BoxContractService();
      processedContracts := {};
      categoryFolderIds := [];
      detector := new ActionItemDetector(envTopicArn, envUserEmail, snsClientFails, true);
      contractsFolderId, protectFolderId, interestsFolderId := None, None, None;
    }

    /** `initialize()`: connect, then set up the folders. */
    method Initialize(clientId: string, clientSecret: string, oauthFailure: Option<Failure>, s: Services) returns (r: Result<()>)
      modifies this, box
      ensures clientId == "" || clientSecret == "" ==>
                r == Err(ValueError(MISSING_CREDENTIALS)) && box.connected == old(box.connected) && unchanged(this)
      ensures clientId != "" && clientSecret != "" && oauthFailure.Some? ==>
                r == Err(oauthFailure.value) && box.connected == old(box.connected) && unchanged(this)
      ensures clientId != "" && clientSecret != "" && oauthFailure.None? ==>
                box.connected && processedContracts == old(processedContracts)
      ensures r.Ok? ==>
                var contracts := ResolveFolder(true, ROOT_FOLDER_ID, CONTRACTS_FOLDER, s.folders(ROOT_FOLDER_ID, CONTRACTS_FOLDER));
                var protect := ResolveFolder(true, ROOT_FOLDER_ID, PROTECT_INTERESTS_FOLDER, s.folders(ROOT_FOLDER_ID, PROTECT_INTERESTS_FOLDER));
                var interests := ResolveFolder(true, ROOT_FOLDER_ID, MY_INTERESTS_FOLDER, s.folders(ROOT_FOLDER_ID, MY_INTERESTS_FOLDER));
                && contracts.Ok? && protect.Ok? && interests.Ok?
                && contractsFolderId == Some(contracts.value)
                && protectFolderId == Some(protect.value)
                && interestsFolderId == Some(interests.value)
                && CategoryLoop(CATEGORIES, true, protect.value, s, |CATEGORIES|) == (categoryFolderIds, None)
    {
      r := box.Initialize(clientId, clientSecret, oauthFailure);
      if r.Err? {
        return;
      }
      r := EnsureFoldersExist(s);
    }

    /** `_ensure_folders_exist()`: the folder attributes are set only when
        every folder was found or created; the category dict is reset before
        its loop and keeps what the loop recorded when a call raises. */
    method EnsureFoldersExist(s: Services) returns (r: Result<()>)
      modifies this
      ensures var contracts := ResolveFolder(box.connected, ROOT_FOLDER_ID, CONTRACTS_FOLDER, s.folders(ROOT_FOLDER_ID, CONTRACTS_FOLDER));
              var protect := ResolveFolder(box.connected, ROOT_FOLDER_ID, PROTECT_INTERESTS_FOLDER, s.folders(ROOT_FOLDER_ID, PROTECT_INTERESTS_FOLDER));
              var interests := ResolveFolder(box.connected, ROOT_FOLDER_ID, MY_INTERESTS_FOLDER, s.folders(ROOT_FOLDER_ID, MY_INTERESTS_FOLDER));
              if contracts.Err? then r == Err(contracts.failure) && unchanged(this)
              else if protect.Err? then r == Err(protect.failure) && unchanged(this)
              else
                var loop := CategoryLoop(CATEGORIES, box.connected, protect.value, s, |CATEGORIES|);
                && categoryFolderIds == loop.0
                && processedContracts == old(processedContracts)
                && (if loop.1.Some? then
                      r == Err(loop.1.value) && contractsFolderId == old(contractsFolderId)
                      && protectFolderId == old(protectFolderId) && interestsFolderId == old(interestsFolderId)
                    else if interests.Err? then
                      r == Err(interests.failure) && contractsFolderId == old(contractsFolderId)
                      && protectFolderId == old(protectFolderId) && interestsFolderId == old(interestsFolderId)
                    else
                      r == Ok(()) && contractsFolderId == Some(contracts.value)
                      && protectFolderId == Some(protect.value) && interestsFolderId == Some(interests.value))
    {
      var contracts := box.FindOrCreateFolder(ROOT_FOLDER_ID, CONTRACTS_FOLDER, s.folders(ROOT_FOLDER_ID, CONTRACTS_FOLDER));
      if contracts.Err? {
        return Err(contracts.failure);
      }
      var protect := box.FindOrCreateFolder(ROOT_FOLDER_ID, PROTECT_INTERESTS_FOLDER, s.folders(ROOT_FOLDER_ID, PROTECT_INTERESTS_FOLDER));
      if protect.Err? {
        return Err(protect.failure);
      }
      var failure := FillCategoryFolders(CATEGORIES, protect.value, s);
      if failure.Some? {
        return Err(failure.value);
      }
      var interests := box.FindOrCreateFolder(ROOT_FOLDER_ID, MY_INTERESTS_FOLDER, s.folders(ROOT_FOLDER_ID, MY_INTERESTS_FOLDER));
      if interests.Err? {
        return Err(interests.failure);
      }
      contractsFolderId := Some(contracts.value);
      protectFolderId := Some(protect.value);
      interestsFolderId := Some(interests.value);
      r := Ok(());
    }

    /** The category loop of `_ensure_folders_exist`: the dict is reset,
        then filled in the order of `names` until a call raises. */
    method FillCategoryFolders(names: seq<string>, protect: string, s: Services) returns (failure: Option<Failure>)
      modifies this`categoryFolderIds
      ensures (categoryFolderIds, failure) == CategoryLoop(names, box.connected, protect, s, |names|)
    {
      categoryFolderIds := [];
      var i := 0;
      while i < |names|
        invariant 0 <= i <= |names|
        invariant CategoryLoop(names, box.connected, protect, s, i) == (categoryFolderIds, None)
      {
        var category := names[i];
        var id := box.FindOrCreateFolder(protect, category, s.folders(protect, category));
        if id.Err? {
          assert CategoryLoop(names, box.connected, protect, s, i + 1) == (categoryFolderIds, Some(id.failure));
          CategoryLoopStops(names, box.connected, protect, s, i + 1);
          return Some(id.failure);
        }
        assert CategoryLoop(names, box.connected, protect, s, i + 1) == (categoryFolderIds + [(category, id.value)], None);
        categoryFolderIds := categoryFolderIds + [(category, id.value)];
        i := i + 1;
      }
      failure := None;
    }

    /** `get_user_interests()` */
    method GetUserInterests(s: Services) returns (interests: Option<string>)
      ensures interests == LoadText(box.connected, interestsFolderId, MY_INTERESTS_FILE, s)
    {
      interests := LoadFile(interestsFolderId, MY_INTERESTS_FILE, s);
    }

    /** `get_per_contract_instructions(name)` */
    method GetPerContractInstructions(contractName: string, s: Services) returns (instructions: Option<string>)
      ensures instructions == LoadText(box.connected, contractsFolderId, InstructionsFileName(contractName), s)
    {
      instructions := LoadFile(contractsFolderId, contractName + SIDECAR_SUFFIX, s);
    }

    /** The shared body of the two loaders: find the file, read it, and
        swallow every error. */
    method LoadFile(folderId: Option<string>, fileName: string, s: Services) returns (text: Option<string>)
      ensures text == LoadText(box.connected, folderId, fileName, s)
    {
      if folderId.None? {
        return None;
      }
      var found := box.FindFileInFolder(folderId.value, fileName, s.listing(folderId.value));
      if found.Err? || !Truthy(found.value) {
        return None;
      }
      var read := s.read(found.value.value);
      if read.Err? {
        return None;
      }
      text := Some(read.value);
    }

    /** `process_contract(file_id, filename, name)`: what it uploads before
        it returns or raises. */
    method ProcessContract(fileId: string, filename: string, contractName: string, s: Services) returns (outcome: ContractOutcome)
      ensures outcome == ContractRun(box.connected, categoryFolderIds, contractsFolderId, interestsFolderId, fileId, contractName, s)
      ensures outcome.result.Ok? ==> |outcome.uploads| == 3
    {
      if !box.connected {
        return ContractOutcome([], Err(RuntimeError(NOT_INITIALIZED)));
      }
      var read := s.read(fileId);
      if read.Err? {
        return ContractOutcome([], Err(read.failure));
      }
      var text := read.value;
      var category := Classify(s.ask(fileId, Classification));
      var interests := GetUserInterests(s);
      var instructions := GetPerContractInstructions(contractName, s);
      var categoryId := CategoryFolderFor(categoryFolderIds, category);
      if categoryId.Err? {
        return ContractOutcome([], Err(categoryId.failure));
      }
      var mirrorName := contractName + MIRROR_SUFFIX;
      var mirror := box.FindOrCreateFolder(categoryId.value, mirrorName, s.folders(categoryId.value, mirrorName));
      if mirror.Err? {
        return ContractOutcome([], Err(mirror.failure));
      }
      var docs := Documents(fileId, text, interests, instructions, category, s);
      outcome := UploadOutputFiles(mirror.value, docs, s);
    }

    /** `_upload_output_files(folder_id, name, mirror, redline, guide)` */
    method UploadOutputFiles(folderId: string, docs: seq<Artifact>, s: Services) returns (outcome: ContractOutcome)
      requires |docs| == |OUTPUT_FILE_NAMES|
      ensures outcome == UploadAll(folderId, docs, s)
    {
      var done: seq<Upload> := [];
      var failure := s.upload(folderId, OUTPUT_FILE_NAMES[0]);
      if failure.Some? {
        return ContractOutcome(done, Err(failure.value));
      }
      done := done + [Upload(folderId, OUTPUT_FILE_NAMES[0], docs[0])];
      failure := s.upload(folderId, OUTPUT_FILE_NAMES[1]);
      if failure.Some? {
        return ContractOutcome(done, Err(failure.value));
      }
      done := done + [Upload(folderId, OUTPUT_FILE_NAMES[1], docs[1])];
      failure := s.upload(folderId, OUTPUT_FILE_NAMES[2]);
      if failure.Some? {
        return ContractOutcome(done, Err(failure.value));
      }
      done := done + [Upload(folderId, OUTPUT_FILE_NAMES[2], docs[2])];
      outcome := ContractOutcome(done, Ok(()));
    }

    /** `process_new_contracts()`: `intake` is what listing the contracts
        folder gives. The contracts not in the ledger are collected first,
        then processed in order, and each one's key joins the ledger whether
        processing it succeeded or raised. */
    method ProcessNewContracts(intake: Result<seq<SdkEntry>>, s: Services) returns (taken: seq<Candidate>)
      modifies this`processedContracts
      ensures taken == Pending(IntakeListing(contractsFolderId, box.connected, intake), old(processedContracts))
      ensures processedContracts == LedgerAfterPass(IntakeListing(contractsFolderId, box.connected, intake), old(processedContracts))
    {
      if contractsFolderId.None? {
        return [];
      }
      var listed := box.ListFolderItems(contractsFolderId.value, intake);
      if listed.Err? {
        return [];
      }
      taken := CollectNewContracts(listed.value);
      ProcessCandidates(taken, s);
    }

    /** The first loop of `process_new_contracts`: the contract files of the
        listing whose key is not in the ledger, in listing order. */
    method CollectNewContracts(items: seq<Item>) returns (taken: seq<Candidate>)
      ensures taken == NewContracts(items, processedContracts)
    {
      taken := [];
      var i := 0;
      while i < |items|
        invariant 0 <= i <= |items|
        invariant taken == NewContracts(items[..i], processedContracts)
      {
        var candidate := NewCandidate(items[i]);
        if candidate.Some? {
          taken := taken + [candidate.value];
        }
        NewContractsStep(items, i, processedContracts);
        i := i + 1;
      }
      assert items[..i] == items;
    }

    /** The body of that loop for one entry: a contract file whose key the
        ledger does not hold yet. */
    method NewCandidate(item: Item) returns (candidate: Option<Candidate>)
      ensures candidate == (if IsNewContract(item, processedContracts) then Some(CandidateOf(item)) else None)
    {
      candidate := None;
      if item.kind == File {
        if IsContractFile(item.name) {
          var contractName := ExtractContractName(item.name);
          var key := ContractKey(contractName, item.id);
          if key !in processedContracts {
            candidate := Some(Candidate(item.id, item.name, contractName));
          }
        }
      }
    }

    /** The second loop of `process_new_contracts`: each contract is
        processed and its key recorded, on success and on failure alike. */
    method ProcessCandidates(taken: seq<Candidate>, s: Services)
      modifies this`processedContracts
      ensures processedContracts == old(processedContracts) + Keys(taken)
    {
      var j := 0;
      while j < |taken|
        invariant 0 <= j <= |taken|
        invariant processedContracts == old(processedContracts) + Keys(taken[..j])
      {
        var c := taken[j];
        TakeUp(c, s);
        KeysAppend(taken[..j], c);
        assert taken[..j + 1] == taken[..j] + [c];
        j := j + 1;
      }
      assert taken[..j] == taken;
    }

    /** One contract of the second loop: it is processed, and its key is
        recorded whether processing succeeded or raised. */
    method TakeUp(c: Candidate, s: Services)
      modifies this`processedContracts
      ensures processedContracts == old(processedContracts) + {KeyOf(c)}
    {
      var key := KeyOf(c);
      var outcome := ProcessContract(c.fileId, c.filename, c.contractName, s);
      if outcome.result.Ok? {
        processedContracts := processedContracts + {key};
      } else {
        processedContracts := processedContracts + {key};
      }
    }

    /** `check_all_contracts_for_action_items()` at the moment `now`:
        `boxEmail` is what asking Box for the user's e-mail gives and
        `envTopicArn` the AWS_SNS_TOPIC_ARN variable. Returns the urgent
        items and the request handed to SNS, if any. */
    method CheckAllContractsForActionItems(listing: Result<seq<SdkEntry>>, s: Services, boxEmail: Result<Option<string>>,
                                           envTopicArn: Option<string>, now: Instant, extract: string -> Captures, publishFails: bool)
      returns (urgent: seq<ActionItem>, request: Option<Notification>)
      requires ValidInstant(now)
      modifies detector
      ensures var listed := IntakeListing(contractsFolderId, box.connected, listing);
              urgent == (if listed.Ok? then UrgentItems(SweepItems(listed.value, s, now, extract)) else [])
      ensures request.Some? <==> urgent != [] && detector.snsReady && Truthy(detector.userEmail) && Truthy(detector.snsTopicArn)
      ensures request.Some? ==> request.value == Notification(detector.snsTopicArn.value, Subject(|urgent|), EmailMessage(urgent))
      ensures detector.snsReady == old(detector.snsReady)
      ensures Truthy(old(detector.userEmail)) ==>
                detector.userEmail == old(detector.userEmail) && detector.snsTopicArn == old(detector.snsTopicArn)
      ensures !Truthy(old(detector.userEmail)) && detector.hasBoxService && boxEmail.Ok? && Truthy(boxEmail.value) ==>
                detector.userEmail == boxEmail.value
                && detector.snsTopicArn == (if Truthy(old(detector.snsTopicArn)) then old(detector.snsTopicArn)
                                            else Some(envTopicArn.GetOr(DEFAULT_TOPIC_ARN)))
      ensures !Truthy(old(detector.userEmail)) && !(detector.hasBoxService && boxEmail.Ok? && Truthy(boxEmail.value)) ==>
                detector.userEmail == old(detector.userEmail) && detector.snsTopicArn == old(detector.snsTopicArn)
    {
      RefreshUserEmail(boxEmail, envTopicArn);
      if contractsFolderId.None? {
        return [], None;
      }
      var listed := box.ListFolderItems(contractsFolderId.value, listing);
      if listed.Err? {
        return [], None;
      }
      var found := SweepContracts(listed.value, s, now, extract);
      urgent := detector.FilterUrgentActionItems(found);
      if urgent != [] {
        var ok;
        ok, request := detector.SendNotification(urgent, publishFails);
      } else {
        request := None;
      }
    }

    /** The first step of a sweep: without an e-mail address, ask Box for
        one, and once one is found make sure a topic is set. */
    method RefreshUserEmail(boxEmail: Result<Option<string>>, envTopicArn: Option<string>)
      modifies detector
      ensures detector.snsReady == old(detector.snsReady)
      ensures Truthy(old(detector.userEmail)) ==>
                detector.userEmail == old(detector.userEmail) && detector.snsTopicArn == old(detector.snsTopicArn)
      ensures !Truthy(old(detector.userEmail)) && detector.hasBoxService && boxEmail.Ok? && Truthy(boxEmail.value) ==>
                detector.userEmail == boxEmail.value
                && detector.snsTopicArn == (if Truthy(old(detector.snsTopicArn)) then old(detector.snsTopicArn)
                                            else Some(envTopicArn.GetOr(DEFAULT_TOPIC_ARN)))
      ensures !Truthy(old(detector.userEmail)) && !(detector.hasBoxService && boxEmail.Ok? && Truthy(boxEmail.value)) ==>
                unchanged(detector)
    {
      if !Truthy(detector.userEmail) {
        var email := detector.GetUserEmailFromBox(boxEmail, envTopicArn);
        if Truthy(email) && !Truthy(detector.snsTopicArn) {
          detector.snsTopicArn := Some(envTopicArn.GetOr(DEFAULT_TOPIC_ARN));
        }
      }
    }

    /** The per-file loop of `check_all_contracts_for_action_items`: every
        contract file that can be read is analysed, in listing order. */
    method SweepContracts(items: seq<Item>, s: Services, now: Instant, extract: string -> Captures) returns (found: seq<ActionItem>)
      requires ValidInstant(now)
      ensures found == SweepItems(items, s, now, extract)
    {
      found := [];
      var i := 0;
      while i < |items|
        invariant 0 <= i <= |items|
        invariant found == SweepItems(items[..i], s, now, extract)
      {
        var contribution := AnalyzeItem(items[i], s, now, extract);
        assert items[..i + 1][..i] == items[..i];
        found := found + contribution;
        i := i + 1;
      }
      assert items[..i] == items;
    }

    /** One entry of the sweep: a contract file is read and analysed, and
        an error in either step is logged and skipped. */
    method AnalyzeItem(item: Item, s: Services, now: Instant, extract: string -> Captures) returns (found: seq<ActionItem>)
      requires ValidInstant(now)
      ensures found == ContractActionItems(item, s, now, extract)
    {
      found := [];
      if item.kind == File && IsContractFile(item.name) {
        var text := s.read(item.id);
        if text.Ok? {
          found := detector.AnalyzeContractForActionItems(s.ask(item.id, FindActionItems), item.name, now, extract);
        }
      }
    }

    /** One pass of the monitoring loop: look for new contracts in the
        listing `intake`, then, when the counter says so, sweep for action
        items over `listing`, which lists the contracts folder again. */
    method MonitoringPass(intake: Result<seq<SdkEntry>>, sweep: bool, listing: Result<seq<SdkEntry>>, s: Services,
                          boxEmail: Result<Option<string>>, envTopicArn: Option<string>, now: Instant,
                          extract: string -> Captures, publishFails: bool)
      requires ValidInstant(now)
      modifies this`processedContracts, detector
      ensures processedContracts == LedgerAfterPass(IntakeListing(contractsFolderId, box.connected, intake), old(processedContracts))
    {
      var taken := ProcessNewContracts(intake, s);
      if sweep {
        var urgent, request := CheckAllContractsForActionItems(listing, s, boxEmail, envTopicArn, now, extract, publishFails);
      }
    }

    /** `run_continuous_monitoring(check_interval, action_item_check_interval)`
        for `passes` passes of its loop. Everything the outside world gives
        on pass `p` (from 1) is a function of `p`: `intake(p)` is the
        listing of the contracts folder for new contracts, `listings(p)` the
        listing the sweep reads, `replies(p)` the other Box and model
        replies, `boxEmail(p)` the e-mail Box reports, `clock(p)` the time
        and `publishFails(p)` whether SNS refuses the alert. The result
        records on which passes the sweep ran. */
    method RunContinuousMonitoring(checkInterval: int, actionInterval: int, passes: nat,
                                   intake: nat -> Result<seq<SdkEntry>>, listings: nat -> Result<seq<SdkEntry>>,
                                   replies: nat -> Services, boxEmail: nat -> Result<Option<string>>,
                                   envTopicArn: Option<string>, clock: nat -> Instant, extract: string -> Captures,
                                   publishFails: nat -> bool)
      returns (r: Result<()>, sweeps: seq<bool>)
      requires forall p :: ValidInstant(clock(p))
      modifies this`processedContracts, detector
      ensures checkInterval == 0 <==> r == Err(ZeroDivisionError)
      ensures checkInterval == 0 ==> sweeps == [] && processedContracts == old(processedContracts)
      ensures checkInterval != 0 ==>
                && r == Ok(())
                && sweeps == SweepSchedule(FloorDiv(actionInterval, checkInterval), passes)
                && processedContracts == LedgerAfter(old(processedContracts), Intakes(contractsFolderId, box.connected, intake, passes))
    {
      if checkInterval == 0 {
        return Err(ZeroDivisionError), [];
      }
      sweeps := Monitor(FloorDiv(actionInterval, checkInterval), passes, intake, listings, replies, boxEmail, envTopicArn,
                        clock, extract, publishFails);
      LedgerAfterPassesIsLedgerAfter(old(processedContracts), contractsFolderId, box.connected, intake, passes);
      r := Ok(());
    }

    /** The `while True` loop of `run_continuous_monitoring`, for `passes`
        passes, with `perSweep` passes to a sweep. */
    method Monitor(perSweep: int, passes: nat, intake: nat -> Result<seq<SdkEntry>>, listings: nat -> Result<seq<SdkEntry>>,
                   replies: nat -> Services, boxEmail: nat -> Result<Option<string>>, envTopicArn: Option<string>,
                   clock: nat -> Instant, extract: string -> Captures, publishFails: nat -> bool)
      returns (sweeps: seq<bool>)
      requires forall p :: ValidInstant(clock(p))
      modifies this`processedContracts, detector
      ensures sweeps == SweepSchedule(perSweep, passes)
      ensures processedContracts == LedgerAfterPasses(old(processedContracts), contractsFolderId, box.connected, intake, passes)
    {
      var count := 0;
      sweeps := [];
      var pass := 0;
      while pass < passes
        invariant 0 <= pass <= passes
        invariant count == CounterAfter(perSweep, pass)
        invariant sweeps == SweepSchedule(perSweep, pass)
        invariant processedContracts == LedgerAfterPasses(old(processedContracts), contractsFolderId, box.connected, intake, pass)
      {
        count := count + 1;
        var sweep := count >= perSweep;
        var p := pass + 1;
        MonitoringPass(intake(p), sweep, listings(p), replies(p), boxEmail(p), envTopicArn, clock(p), extract, publishFails(p));
        LedgerAfterPassesStep(old(processedContracts), contractsFolderId, box.connected, intake, pass);
        if sweep {
          count := 0;
        }
        sweeps := sweeps + [sweep];
        pass := pass + 1;
      }
    }
  }

  /** The ledger after the first `n` passes of the monitoring loop. */
  function LedgerAfterPasses(processed: set<string>, folderId: Option<string>, connected: bool,
                             intake: nat -> Result<seq<SdkEntry>>, n: nat): set<string>
  {
    if n == 0 then processed
    else LedgerAfterPass(IntakeListing(folderId, connected, intake(n)), LedgerAfterPasses(processed, folderId, connected, intake, n - 1))
  }

  /** One more pass adds what that pass takes up. */
  lemma LedgerAfterPassesStep(processed: set<string>, folderId: Option<string>, connected: bool,
                              intake: nat -> Result<seq<SdkEntry>>, n: nat)
    ensures LedgerAfterPasses(processed, folderId, connected, intake, n + 1)
            == LedgerAfterPass(IntakeListing(folderId, connected, intake(n + 1)), LedgerAfterPasses(processed, folderId, connected, intake, n))
  {
  }

  /** The loop's ledger is the ledger after the run of listings it saw. */
  lemma {:induction false} LedgerAfterPassesIsLedgerAfter(processed: set<string>, folderId: Option<string>, connected: bool,
                                                          intake: nat -> Result<seq<SdkEntry>>, n: nat)
    ensures LedgerAfterPasses(processed, folderId, connected, intake, n) == LedgerAfter(processed, Intakes(folderId, connected, intake, n))
  {
    if n > 0 {
      LedgerAfterPassesIsLedgerAfter(processed, folderId, connected, intake, n - 1);
      assert Intakes(folderId, connected, intake, n)[..n - 1] == Intakes(folderId, connected, intake, n - 1);
    }
  }

  /** Once a category call raises, the loop records nothing more. */
  lemma {:induction false} CategoryLoopStops(names: seq<string>, connected: bool, protect: string, s: Services, n: nat)
    requires n <= |names|
    requires CategoryLoop(names, connected, protect, s, n).1.Some?
    ensures CategoryLoop(names, connected, protect, s, |names|) == CategoryLoop(names, connected, protect, s, n)
    decreases |names| - n
  {
    if n < |names| {
      CategoryLoopStops(names, connected, protect, s, n + 1);
    }
  }
}
