/** The rules of contract_processor.py that are pure functions of their
    inputs: which intake files are contracts and what they are called, the
    ledger key, the classification of the model's reply, the sections of the
    analysis prompt, the three deliverables, and the cadence of the
    action-item sweep. */
module ContractRules {
  import opened Common
  import opened Text
  import opened BoxService

  // ---------------------------------------------------------------------
  // Names and folders

  const ROOT_FOLDER_ID: string := "0"
  const CONTRACTS_FOLDER: string := "Smart_Contracts"
  const PROTECT_INTERESTS_FOLDER: string := "protect_your_interests"
  const MY_INTERESTS_FOLDER: string := "my_interests"
  const MY_INTERESTS_FILE: string := "MY_INTERESTS.txt"
  const SIDECAR_SUFFIX: string := ".instructions"
  const MIRROR_SUFFIX: string := "_mirror"

  const CATEGORIES: seq<string> := [
    "Service Contract",
    "Employment Contract",
    "Lease and Rent Agreement",
    "Non-Disclosure Agreement (NDA)",
    "Partnership and Joint Venture Agreement",
    "Loan and Financing Contract",
    "Government and Procurement Contract",
    "Software License Agreement",
    "Freelancer and Contractor Agreement"
  ]

  /** The categories, lower-cased. */
  const LOWER_NAMES: seq<string> := [
    "service contract",
    "employment contract",
    "lease and rent agreement",
    "non-disclosure agreement (nda)",
    "partnership and joint venture agreement",
    "loan and financing contract",
    "government and procurement contract",
    "software license agreement",
    "freelancer and contractor agreement"
  ]

  const CONTRACT_EXTENSIONS: seq<string> := [".pdf", ".doc", ".docx", ".txt"]

  /** The three deliverables, in upload order. */
  const OUTPUT_FILE_NAMES: seq<string> := [
    "1_mirror_contract_protecting_YOUR_interests.txt",
    "2_clean_redline_comparison.txt",
    "3_negotiation_guide.txt"
  ]

  /** Whether `names` ends with one of `suffixes`: `any(name.endswith(s) for s in suffixes)`. */
  function EndsWithAny(name: string, suffixes: seq<string>): (b: bool)
    ensures b <==> exists s :: s in suffixes && EndsWith(name, s)
  {
    if suffixes == [] then false
    else EndsWith(name, suffixes[0]) || EndsWithAny(name, suffixes[1..])
  }

  /** `_is_contract_file(filename)` */
  predicate IsContractFile(filename: string) {
    if EndsWith(filename, SIDECAR_SUFFIX) then false
    else if StartsWith(filename, ".") then false
    else EndsWithAny(Lower(filename), CONTRACT_EXTENSIONS)
  }

  /** A file is a contract exactly when it is neither a sidecar nor hidden,
      and its lower-cased name ends with a contract extension. */
  lemma ContractFileRule(filename: string)
    ensures IsContractFile(filename)
            <==> && !EndsWith(filename, SIDECAR_SUFFIX)
                 && !StartsWith(filename, ".")
                 && exists e :: e in CONTRACT_EXTENSIONS && EndsWith(Lower(filename), e)
  {
  }

  /** A name that ends in a contract extension, in any letter case, and
      does not start with a dot is a contract. */
  lemma ContractExtensionAccepted(base: string, ext: string)
    requires Lower(ext) in CONTRACT_EXTENSIONS
    requires !StartsWith(base + ext, ".")
    ensures IsContractFile(base + ext)
  {
    var f := base + ext;
    LowerConcat(base, ext);
    assert Lower(f)[|Lower(f)| - |Lower(ext)|..] == Lower(ext);
    var last := ext[|ext| - 1];
    assert Lower(ext)[|ext| - 1] == LowerChar(last);
    assert f[|f| - 1] == last;
    assert LowerChar(last) != 's';
  }

  /** `Path(name).stem` for a name without '/': the name without its last
      extension, where a leading dot and a trailing dot do not count as one. */
  function Stem(name: string): (r: string)
    ensures StartsWith(name, r)
    ensures r == name || (0 < |r| < |name| - 1 && name[|r|] == '.'
                          && forall k :: |r| < k < |name| ==> name[k] != '.')
  {
    var i := LastIndexOf(name, '.');
    if 0 < i < |name| - 1 then name[..i] else name
  }

  /** Appending an extension and taking the stem gives the name back. */
  lemma StemOfExtended(base: string, ext: string)
    requires base != [] && ext != [] && '.' !in ext
    ensures Stem(base + "." + ext) == base
  {
    var name := base + "." + ext;
    var i := LastIndexOf(name, '.');
    assert name[|base|] == '.';
  }

  /** `_extract_contract_name(filename)` */
  function ExtractContractName(filename: string): string {
    var stem := Stem(filename);
    if EndsWith(stem, SIDECAR_SUFFIX) then stem[..|stem| - |SIDECAR_SUFFIX|] else stem
  }

  /** The file `get_per_contract_instructions` looks for. */
  function InstructionsFileName(contractName: string): string {
    contractName + SIDECAR_SUFFIX
  }

  /** A contract `base.ext` is named `base`, and so is its instructions
      file, which is never itself taken for a contract. */
  lemma ContractNameRoundTrip(base: string, ext: string)
    requires base != [] && !EndsWith(base, SIDECAR_SUFFIX)
    requires ext != [] && '.' !in ext
    ensures ExtractContractName(base + "." + ext) == base
    ensures ExtractContractName(InstructionsFileName(base)) == base
    ensures !IsContractFile(InstructionsFileName(base))
  {
    StemOfExtended(base, ext);
    assert InstructionsFileName(base) == base + "." + "instructions";
    StemOfExtended(base, "instructions");
    var f := InstructionsFileName(base);
    assert f[|f| - |SIDECAR_SUFFIX|..] == SIDECAR_SUFFIX;
  }

  /** The step that drops `.instructions` removes exactly one copy of it. */
  lemma ContractNameDropsOneSuffix(filename: string)
    ensures var stem := Stem(filename);
            if EndsWith(stem, SIDECAR_SUFFIX) then ExtractContractName(filename) + SIDECAR_SUFFIX == stem
            else ExtractContractName(filename) == stem
  {
    var stem := Stem(filename);
    if EndsWith(stem, SIDECAR_SUFFIX) {
      assert stem == stem[..|stem| - |SIDECAR_SUFFIX|] + stem[|stem| - |SIDECAR_SUFFIX|..];
    }
  }

  /** The ledger key `f"{contract_name}_{file_id}"`. */
  function ContractKey(contractName: string, fileId: string): string {
    contractName + "_" + fileId
  }

  lemma KeySeparator(contractName: string, fileId: string)
    requires '_' !in fileId
    ensures LastIndexOf(ContractKey(contractName, fileId), '_') == |contractName|
  {
    var key := ContractKey(contractName, fileId);
    var i := LastIndexOf(key, '_');
    assert key[|contractName|] == '_';
  }

  /** For file ids without '_' (Box ids are numeric), different contracts
      never share a ledger key. */
  lemma KeyInjective(n1: string, id1: string, n2: string, id2: string)
    requires '_' !in id1 && '_' !in id2
    requires ContractKey(n1, id1) == ContractKey(n2, id2)
    ensures n1 == n2 && id1 == id2
  {
    KeySeparator(n1, id1);
    KeySeparator(n2, id2);
    var key := ContractKey(n1, id1);
    assert n1 == key[..|n1|] && n2 == key[..|n2|];
    assert id1 == key[|n1| + 1..] && id2 == key[|n2| + 1..];
  }

  // ---------------------------------------------------------------------
  // Classification

  /** Lower-casing a category gives its entry in LOWER_NAMES. */
  lemma LowerName(i: nat)
    requires i < |CATEGORIES|
    ensures |LOWER_NAMES| == |CATEGORIES| && Lower(CATEGORIES[i]) == LOWER_NAMES[i]
  {
    if i == 0 {
      LowerName0();
    } else if i == 1 {
      LowerName1();
    } else if i == 2 {
      LowerName2();
    } else if i == 3 {
      LowerName3();
    } else if i == 4 {
      LowerName4();
    } else if i == 5 {
      LowerName5();
    } else if i == 6 {
      LowerName6();
    } else if i == 7 {
      LowerName7();
    } else {
      LowerName8();
    }
  }

  lemma LowerName0() ensures Lower(CATEGORIES[0]) == LOWER_NAMES[0] { }
  lemma LowerName1() ensures Lower(CATEGORIES[1]) == LOWER_NAMES[1] { }
  lemma LowerName2() ensures Lower(CATEGORIES[2]) == LOWER_NAMES[2] { }
  lemma LowerName3() ensures Lower(CATEGORIES[3]) == LOWER_NAMES[3] { }
  lemma LowerName4() ensures Lower(CATEGORIES[4]) == LOWER_NAMES[4] {
    assert forall k | 0 <= k < |CATEGORIES[4]| :: Lower(CATEGORIES[4])[k] == LOWER_NAMES[4][k];
  }
  lemma LowerName5() ensures Lower(CATEGORIES[5]) == LOWER_NAMES[5] { }
  lemma LowerName6() ensures Lower(CATEGORIES[6]) == LOWER_NAMES[6] { }
  lemma LowerName7() ensures Lower(CATEGORIES[7]) == LOWER_NAMES[7] { }
  lemma LowerName8() ensures Lower(CATEGORIES[8]) == LOWER_NAMES[8] { }

  lemma LongerNeverContained(s: string, sub: string)
    requires |sub| > |s|
    ensures !Contains(s, sub)
  {
  }

  /** No other category's lower-cased name occurs in "service contract". */
  lemma NothingInside0(b: nat)
    requires b < |LOWER_NAMES| && b != 0
    ensures !Contains(LOWER_NAMES[0], LOWER_NAMES[b])
  {
    LongerNeverContained(LOWER_NAMES[0], LOWER_NAMES[b]);
  }

  /** No other category's lower-cased name occurs in "employment contract". */
  lemma NothingInside1(b: nat)
    requires b < |LOWER_NAMES| && b != 1
    ensures !Contains(LOWER_NAMES[1], LOWER_NAMES[b])
  {
    if b == 0 {
      MissingCharacter(LOWER_NAMES[1], LOWER_NAMES[0], 0);
    } else {
      LongerNeverContained(LOWER_NAMES[1], LOWER_NAMES[b]);
    }
  }

  /** No other category's lower-cased name occurs in "lease and rent agreement". */
  lemma NothingInside2(b: nat)
    requires b < |LOWER_NAMES| && b != 2
    ensures !Contains(LOWER_NAMES[2], LOWER_NAMES[b])
  {
    if b == 0 {
      MissingCharacter(LOWER_NAMES[2], LOWER_NAMES[0], 3);
    } else if b == 1 {
      MissingCharacter(LOWER_NAMES[2], LOWER_NAMES[1], 1);
    } else {
      LongerNeverContained(LOWER_NAMES[2], LOWER_NAMES[b]);
    }
  }

  /** No other category's lower-cased name occurs in "non-disclosure agreement (nda)". */
  lemma NothingInside3(b: nat)
    requires b < |LOWER_NAMES| && b != 3
    ensures !Contains(LOWER_NAMES[3], LOWER_NAMES[b])
  {
    if b == 0 {
      MissingCharacter(LOWER_NAMES[3], LOWER_NAMES[0], 3);
    } else if b == 1 {
      MissingCharacter(LOWER_NAMES[3], LOWER_NAMES[1], 0);
    } else if b == 2 {
      MissingCharacter(LOWER_NAMES[3], LOWER_NAMES[2], 0);
    } else if b == 5 {
      MissingCharacter(LOWER_NAMES[3], LOWER_NAMES[5], 0);
    } else if b == 7 {
      MissingCharacter(LOWER_NAMES[3], LOWER_NAMES[7], 0);
    } else {
      LongerNeverContained(LOWER_NAMES[3], LOWER_NAMES[b]);
    }
  }

  /** No other category's lower-cased name occurs in "partnership and joint venture agreement". */
  lemma NothingInside4(b: nat)
    requires b < |LOWER_NAMES| && b != 4
    ensures !Contains(LOWER_NAMES[4], LOWER_NAMES[b])
  {
    if b == 0 {
      MissingCharacter(LOWER_NAMES[4], LOWER_NAMES[0], 5);
    } else if b == 1 {
      MissingCharacter(LOWER_NAMES[4], LOWER_NAMES[1], 1);
    } else if b == 2 {
      MissingCharacter(LOWER_NAMES[4], LOWER_NAMES[2], 0);
    } else if b == 3 {
      MissingCharacter(LOWER_NAMES[4], LOWER_NAMES[3], 1);
    } else if b == 5 {
      MissingCharacter(LOWER_NAMES[4], LOWER_NAMES[5], 0);
    } else if b == 6 {
      MissingCharacter(LOWER_NAMES[4], LOWER_NAMES[6], 0);
    } else if b == 7 {
      MissingCharacter(LOWER_NAMES[4], LOWER_NAMES[7], 1);
    } else {
      MissingCharacter(LOWER_NAMES[4], LOWER_NAMES[8], 0);
    }
  }

  /** No other category's lower-cased name occurs in "loan and financing contract". */
  lemma NothingInside5(b: nat)
    requires b < |LOWER_NAMES| && b != 5
    ensures !Contains(LOWER_NAMES[5], LOWER_NAMES[b])
  {
    if b == 0 {
      MissingCharacter(LOWER_NAMES[5], LOWER_NAMES[0], 0);
    } else if b == 1 {
      MissingCharacter(LOWER_NAMES[5], LOWER_NAMES[1], 0);
    } else if b == 2 {
      MissingCharacter(LOWER_NAMES[5], LOWER_NAMES[2], 1);
    } else if b == 7 {
      MissingCharacter(LOWER_NAMES[5], LOWER_NAMES[7], 0);
    } else {
      LongerNeverContained(LOWER_NAMES[5], LOWER_NAMES[b]);
    }
  }

  /** No other category's lower-cased name occurs in "government and procurement contract". */
  lemma NothingInside6(b: nat)
    requires b < |LOWER_NAMES| && b != 6
    ensures !Contains(LOWER_NAMES[6], LOWER_NAMES[b])
  {
    if b == 0 {
      MissingCharacter(LOWER_NAMES[6], LOWER_NAMES[0], 0);
    } else if b == 1 {
      MissingCharacter(LOWER_NAMES[6], LOWER_NAMES[1], 3);
    } else if b == 2 {
      MissingCharacter(LOWER_NAMES[6], LOWER_NAMES[2], 0);
    } else if b == 3 {
      MissingCharacter(LOWER_NAMES[6], LOWER_NAMES[3], 3);
    } else if b == 5 {
      MissingCharacter(LOWER_NAMES[6], LOWER_NAMES[5], 0);
    } else if b == 7 {
      MissingCharacter(LOWER_NAMES[6], LOWER_NAMES[7], 0);
    } else if b == 8 {
      MissingCharacter(LOWER_NAMES[6], LOWER_NAMES[8], 0);
    } else {
      LongerNeverContained(LOWER_NAMES[6], LOWER_NAMES[b]);
    }
  }

  /** No other category's lower-cased name occurs in "software license agreement". */
  lemma NothingInside7(b: nat)
    requires b < |LOWER_NAMES| && b != 7
    ensures !Contains(LOWER_NAMES[7], LOWER_NAMES[b])
  {
    if b == 0 {
      MissingCharacter(LOWER_NAMES[7], LOWER_NAMES[0], 3);
    } else if b == 1 {
      MissingCharacter(LOWER_NAMES[7], LOWER_NAMES[1], 1);
    } else if b == 2 {
      MissingCharacter(LOWER_NAMES[7], LOWER_NAMES[2], 0);
    } else {
      LongerNeverContained(LOWER_NAMES[7], LOWER_NAMES[b]);
    }
  }

  /** No other category's lower-cased name occurs in "freelancer and contractor agreement". */
  lemma NothingInside8(b: nat)
    requires b < |LOWER_NAMES| && b != 8
    ensures !Contains(LOWER_NAMES[8], LOWER_NAMES[b])
  {
    if b == 0 {
      MissingCharacter(LOWER_NAMES[8], LOWER_NAMES[0], 0);
    } else if b == 1 {
      MissingCharacter(LOWER_NAMES[8], LOWER_NAMES[1], 1);
    } else if b == 2 {
      MissingCharacter(LOWER_NAMES[8], LOWER_NAMES[2], 3);
    } else if b == 3 {
      MissingCharacter(LOWER_NAMES[8], LOWER_NAMES[3], 0);
    } else if b == 5 {
      MissingCharacter(LOWER_NAMES[8], LOWER_NAMES[5], 1);
    } else if b == 6 {
      MissingCharacter(LOWER_NAMES[8], LOWER_NAMES[6], 0);
    } else if b == 7 {
      MissingCharacter(LOWER_NAMES[8], LOWER_NAMES[7], 0);
    } else {
      LongerNeverContained(LOWER_NAMES[8], LOWER_NAMES[b]);
    }
  }

  /** No category's lower-cased name occurs in another's. */
  lemma CategoriesIncomparable(a: nat, b: nat)
    requires a < |LOWER_NAMES| && b < |LOWER_NAMES| && a != b
    ensures !Contains(LOWER_NAMES[a], LOWER_NAMES[b])
  {
    if a == 0 { NothingInside0(b); }
    else if a == 1 { NothingInside1(b); }
    else if a == 2 { NothingInside2(b); }
    else if a == 3 { NothingInside3(b); }
    else if a == 4 { NothingInside4(b); }
    else if a == 5 { NothingInside5(b); }
    else if a == 6 { NothingInside6(b); }
    else if a == 7 { NothingInside7(b); }
    else { NothingInside8(b); }
  }

  /** The nine categories are nine different names. */
  lemma CategoriesDistinct(i: nat, j: nat)
    requires i < |CATEGORIES| && j < |CATEGORIES| && i != j
    ensures CATEGORIES[i] != CATEGORIES[j]
  {
    LowerName(i);
    LowerName(j);
    CategoriesIncomparable(i, j);
    if CATEGORIES[i] == CATEGORIES[j] {
      assert OccursAt(LOWER_NAMES[i], LOWER_NAMES[j], 0);
    }
  }

  /** `classification.strip().strip('"').strip("'").strip()` */
  function CleanReply(reply: string): string {
    Strip(StripChar(StripChar(Strip(reply), '"'), '\''))
  }

  /** One iteration of the matching loop: an exact case-insensitive match,
      or either lower-cased name containing the other. */
  predicate Matches(category: string, reply: string) {
    Lower(category) == Lower(reply)
    || Contains(Lower(reply), Lower(category))
    || Contains(Lower(category), Lower(reply))
  }

  /** The index of the first category, in list order, that matches. */
  function FirstMatch(categories: seq<string>, reply: string): (r: Option<nat>)
    ensures r.Some? ==> r.value < |categories| && Matches(categories[r.value], reply)
                        && forall j :: 0 <= j < r.value ==> !Matches(categories[j], reply)
    ensures r.None? ==> forall j :: 0 <= j < |categories| ==> !Matches(categories[j], reply)
  {
    if categories == [] then None
    else if Matches(categories[0], reply) then Some(0)
    else
      match FirstMatch(categories[1..], reply)
      case Some(i) =>
        assert forall j :: 1 <= j <= i ==> categories[j] == categories[1..][j - 1];
        Some(i + 1)
      case None =>
        assert forall j :: 1 <= j < |categories| ==> categories[j] == categories[1..][j - 1];
        None
  }

  /** The matching loop over `categories`, falling back to the first. */
  function ClassifyAmong(categories: seq<string>, reply: Result<string>): (category: string)
    requires categories != []
    ensures category in categories
  {
    match reply
    case Err(_) => categories[0]
    case Ok(text) =>
      match FirstMatch(categories, CleanReply(text))
      case Some(i) => categories[i]
      case None => categories[0]
  }

  /** `classify_contract`, given what asking the model returned or raised. */
  function Classify(reply: Result<string>): (category: string)
    ensures category in CATEGORIES
  {
    ClassifyAmong(CATEGORIES, reply)
  }

  /** A reply whose lower-cased form is one category's name matches no
      other category. */
  lemma OnlyOwnCategory(i: nat, j: nat, reply: string)
    requires i < |CATEGORIES| && j < |CATEGORIES| && i != j
    requires Lower(reply) == LOWER_NAMES[i]
    ensures !Matches(CATEGORIES[j], reply)
  {
    LowerName(j);
    CategoriesIncomparable(i, j);
    CategoriesIncomparable(j, i);
    if LOWER_NAMES[j] == LOWER_NAMES[i] {
      assert OccursAt(LOWER_NAMES[i], LOWER_NAMES[j], 0);
      assert false;
    }
  }

  lemma FirstMatchIs(categories: seq<string>, reply: string, i: nat)
    requires i < |categories| && Matches(categories[i], reply)
    requires forall j :: 0 <= j < i ==> !Matches(categories[j], reply)
    ensures FirstMatch(categories, reply) == Some(i)
  {
  }

  /** The reply is classified as the first category, in list order, that
      it matches. */
  lemma ClassifyFirstMatch(reply: string, i: nat)
    requires i < |CATEGORIES| && Matches(CATEGORIES[i], CleanReply(reply))
    requires forall j :: 0 <= j < i ==> !Matches(CATEGORIES[j], CleanReply(reply))
    ensures Classify(Ok(reply)) == CATEGORIES[i]
  {
    FirstMatchIs(CATEGORIES, CleanReply(reply), i);
  }

  /** A reply that matches no category, or a model call that raised, falls
      back to the first category. */
  lemma ClassifyDefault(reply: Result<string>)
    requires reply.Ok? ==> forall j :: 0 <= j < |CATEGORIES| ==> !Matches(CATEGORIES[j], CleanReply(reply.value))
    ensures Classify(reply) == CATEGORIES[0]
  {
  }

  /** An empty reply (or one of only whitespace and quotes) is contained in
      every name, so it goes to the first category. */
  lemma ClassifyEmptyReply(reply: string)
    requires CleanReply(reply) == ""
    ensures Classify(Ok(reply)) == CATEGORIES[0]
  {
    assert OccursAt(Lower(CATEGORIES[0]), Lower(""), 0);
    ClassifyFirstMatch(reply, 0);
  }

  /** A reply that names a category (in any letter case, with surrounding
      whitespace and quotes) is classified as that category. */
  lemma ClassifyExact(reply: string, i: nat)
    requires i < |CATEGORIES|
    requires Lower(CleanReply(reply)) == Lower(CATEGORIES[i])
    ensures Classify(Ok(reply)) == CATEGORIES[i]
  {
    var cleaned := CleanReply(reply);
    LowerName(i);
    forall j | 0 <= j < i
      ensures !Matches(CATEGORIES[j], cleaned)
    {
      OnlyOwnCategory(i, j, cleaned);
    }
    ClassifyFirstMatch(reply, i);
  }

  // ---------------------------------------------------------------------
  // The analysis prompt

  /** The parts `_build_analysis_prompt` assembles, in order. The wording of
      each part is fixed text around the fields shown. */
  datatype PromptSection =
    | Header(category: string, guided: bool)
    | ContractExcerpt(excerpt: string)
    | GeneralInterests(interests: string)
    | SpecificInstructions(instructions: string)
    | PriorityNote
    | TaskList(guided: bool)
    | Guidelines(category: string, guided: bool)

  const EXCERPT_LENGTH: nat := 5000

  /** `_build_analysis_prompt(text, interests, instructions, category)` */
  function AnalysisPrompt(text: string, interests: Option<string>, instructions: Option<string>, category: string): seq<PromptSection> {
    var guided := interests.Some? || instructions.Some?;
    [Header(category, guided), ContractExcerpt(Prefix(text, EXCERPT_LENGTH))]
    + (if guided && Truthy(interests) then [GeneralInterests(interests.value)] else [])
    + (if guided && Truthy(instructions) then [SpecificInstructions(instructions.value), PriorityNote] else [])
    + [TaskList(guided), Guidelines(category, guided)]
  }

  /** The guided variant is used exactly when interests or instructions were
      found (even empty ones); the priority note appears exactly when the
      instructions are non-empty, right after them; the interests section
      exactly when the interests are non-empty. */
  lemma PromptGuidance(text: string, interests: Option<string>, instructions: Option<string>, category: string)
    ensures var p := AnalysisPrompt(text, interests, instructions, category);
            && (Header(category, true) in p <==> interests.Some? || instructions.Some?)
            && (PriorityNote in p <==> Truthy(instructions))
            && (Truthy(instructions) ==> exists k :: 0 <= k < |p| - 1 && p[k] == SpecificInstructions(instructions.value) && p[k + 1] == PriorityNote)
            && ((exists s :: GeneralInterests(s) in p) <==> Truthy(interests))
            && ((exists s :: SpecificInstructions(s) in p) <==> Truthy(instructions))
            && ContractExcerpt(Prefix(text, EXCERPT_LENGTH)) in p
  {
    var p := AnalysisPrompt(text, interests, instructions, category);
    var guided := interests.Some? || instructions.Some?;
    assert p[0] == Header(category, guided);
    if Truthy(interests) {
      assert p[2] == GeneralInterests(interests.value);
    }
    if Truthy(instructions) {
      var k := if Truthy(interests) then 3 else 2;
      assert p[k] == SpecificInstructions(instructions.value) && p[k + 1] == PriorityNote;
    }
  }

  // ---------------------------------------------------------------------
  // The deliverables

  const NO_INTERESTS: string := "No specific interests provided"

  /** What a placeholder document shows for the interests. */
  function InterestsShown(interests: Option<string>): string {
    if Truthy(interests) then interests.value else NO_INTERESTS
  }

  /** The content of one deliverable: the model's text, or a placeholder
      built from the contract when asking the model raised. */
  datatype Artifact =
    | Generated(text: string)
    | FallbackMirror(category: string, excerpt: string, interests: string)
    | FallbackRedline(category: string, excerpt: string)
    | FallbackGuide(category: string, interests: string)

  /** The mirror contract, the redline comparison and the negotiation guide,
      given the three replies of the model. */
  function Deliverables(mirror: Result<string>, redline: Result<string>, guide: Result<string>,
                        text: string, category: string, interests: Option<string>): (r: seq<Artifact>)
    ensures |r| == |OUTPUT_FILE_NAMES|
    ensures mirror.Ok? ==> r[0] == Generated(mirror.value)
    ensures redline.Ok? ==> r[1] == Generated(redline.value)
    ensures guide.Ok? ==> r[2] == Generated(guide.value)
  {
    [ if mirror.Ok? then Generated(mirror.value)
      else FallbackMirror(category, Prefix(text, 2000), InterestsShown(interests)),
      if redline.Ok? then Generated(redline.value)
      else FallbackRedline(category, Prefix(text, 1000)),
      if guide.Ok? then Generated(guide.value)
      else FallbackGuide(category, InterestsShown(interests)) ]
  }

  /** A failed model call never loses a deliverable: each placeholder names
      the category, and the interests wherever the user gave any. */
  lemma FallbacksKeepContext(text: string, category: string, interests: Option<string>)
    ensures var r := Deliverables(Err(OtherError("")), Err(OtherError("")), Err(OtherError("")), text, category, interests);
            && r[0].category == category && r[1].category == category && r[2].category == category
            && StartsWith(text, r[0].excerpt) && StartsWith(text, r[1].excerpt)
            && r[0].interests == r[2].interests
            && r[0].interests == (if Truthy(interests) then interests.value else NO_INTERESTS)
  {
  }

  // ---------------------------------------------------------------------
  // The processing ledger

  /** A contract file found in the intake folder. */
  datatype Candidate = Candidate(fileId: string, filename: string, contractName: string)

  function KeyOf(c: Candidate): string {
    ContractKey(c.contractName, c.fileId)
  }

  function CandidateOf(item: Item): Candidate {
    Candidate(item.id, item.name, ExtractContractName(item.name))
  }

  predicate IsContractItem(item: Item) {
    item.kind == File && IsContractFile(item.name)
  }

  /** The images under `f` of the elements of `xs` that `keep` accepts, in
      order: a list comprehension `[f(x) for x in xs if keep(x)]`. */
  function FilterMap<T, U>(xs: seq<T>, keep: T -> bool, f: T -> U): (r: seq<U>)
    ensures |r| <= |xs|
  {
    if xs == [] then []
    else FilterMap(xs[..|xs| - 1], keep, f) + (if keep(xs[|xs| - 1]) then [f(xs[|xs| - 1])] else [])
  }

  lemma {:induction false} FilterMapMembers<T, U>(xs: seq<T>, keep: T -> bool, f: T -> U, y: U)
    ensures y in FilterMap(xs, keep, f) <==> exists x :: x in xs && keep(x) && y == f(x)
    decreases |xs|
  {
    if xs != [] {
      var init := xs[..|xs| - 1];
      FilterMapMembers(init, keep, f, y);
      assert xs == init + [xs[|xs| - 1]];
    }
  }

  lemma FilterMapStep<T, U>(xs: seq<T>, i: nat, keep: T -> bool, f: T -> U)
    requires i < |xs|
    ensures FilterMap(xs[..i + 1], keep, f) == FilterMap(xs[..i], keep, f) + (if keep(xs[i]) then [f(xs[i])] else [])
  {
    assert xs[..i + 1][..i] == xs[..i];
  }

  /** Whether a listed entry is a contract the ledger does not yet hold. */
  predicate IsNewContract(item: Item, processed: set<string>) {
    IsContractItem(item) && KeyOf(CandidateOf(item)) !in processed
  }

  /** The contracts of a listing that the ledger does not yet hold, in
      listing order; `processed` is the ledger before the pass. */
  function NewContracts(items: seq<Item>, processed: set<string>): (r: seq<Candidate>)
    ensures |r| <= |items|
  {
    FilterMap(items, item => IsNewContract(item, processed), CandidateOf)
  }

  /** Each listed entry adds at most itself to the contracts a pass finds. */
  lemma NewContractsStep(items: seq<Item>, i: nat, processed: set<string>)
    requires i < |items|
    ensures NewContracts(items[..i + 1], processed)
            == NewContracts(items[..i], processed) + (if IsNewContract(items[i], processed) then [CandidateOf(items[i])] else [])
  {
    FilterMapStep(items, i, item => IsNewContract(item, processed), CandidateOf);
  }

  /** A pass takes up exactly the contract files of the listing whose key
      is not in the ledger. */
  lemma NewContractsMembers(items: seq<Item>, processed: set<string>, c: Candidate)
    ensures c in NewContracts(items, processed)
            <==> (exists item :: item in items && IsContractItem(item) && c == CandidateOf(item) && KeyOf(c) !in processed)
  {
    FilterMapMembers(items, item => IsNewContract(item, processed), CandidateOf, c);
  }

  /** The contracts a pass finds, given what listing the intake folder gave. */
  function Pending(listed: Result<seq<Item>>, processed: set<string>): seq<Candidate> {
    if listed.Ok? then NewContracts(listed.value, processed) else []
  }

  /** The set `{f(x) for x in xs}`. */
  function Image<T(==), U>(xs: seq<T>, f: T -> U): (r: set<U>)
    ensures forall x :: x in xs ==> f(x) in r
    ensures forall y :: y in r ==> exists x :: x in xs && f(x) == y
  {
    set x | x in xs :: f(x)
  }

  lemma ImageAppend<T, U>(xs: seq<T>, x: T, f: T -> U)
    ensures Image(xs + [x], f) == Image(xs, f) + {f(x)}
  {
  }

  /** The keys of a run of candidates. */
  function Keys(cs: seq<Candidate>): (keys: set<string>)
  {
    Image(cs, KeyOf)
  }

  lemma KeysAppend(cs: seq<Candidate>, c: Candidate)
    ensures Keys(cs + [c]) == Keys(cs) + {KeyOf(c)}
  {
    ImageAppend(cs, c, KeyOf);
  }

  /** The ledger after a pass: every contract the pass took up is added,
      whether processing it succeeded or raised. */
  function LedgerAfterPass(listed: Result<seq<Item>>, processed: set<string>): set<string> {
    processed + Keys(Pending(listed, processed))
  }

  /** The ledger after a run of passes. */
  function LedgerAfter(processed: set<string>, listings: seq<Result<seq<Item>>>): set<string> {
    if listings == [] then processed
    else LedgerAfterPass(listings[|listings| - 1], LedgerAfter(processed, listings[..|listings| - 1]))
  }

  /** A pass never takes up a contract already in the ledger, and the
      contracts it takes up are then in it: repeating the pass over the same
      listing finds nothing. */
  lemma SecondPassFindsNothing(listed: Result<seq<Item>>, processed: set<string>)
    ensures forall c :: c in Pending(listed, processed) ==> KeyOf(c) !in processed
    ensures Pending(listed, LedgerAfterPass(listed, processed)) == []
  {
    if listed.Ok? {
      forall c | c in Pending(listed, processed)
        ensures KeyOf(c) !in processed
      {
        NewContractsMembers(listed.value, processed, c);
      }
      var r := Pending(listed, LedgerAfterPass(listed, processed));
      if r != [] {
        NotTakenUpTwice(listed.value, processed, r[0]);
      }
    }
  }

  lemma NotTakenUpTwice(items: seq<Item>, processed: set<string>, c: Candidate)
    ensures c !in NewContracts(items, processed + Keys(NewContracts(items, processed)))
  {
    var first := NewContracts(items, processed);
    NewContractsMembers(items, processed + Keys(first), c);
    if c in NewContracts(items, processed + Keys(first)) {
      var item :| item in items && IsContractItem(item) && c == CandidateOf(item) && KeyOf(c) !in processed + Keys(first);
      NewContractsMembers(items, processed, c);
    }
  }

  /** The ledger only grows. */
  lemma {:induction false} LedgerGrows(processed: set<string>, listings: seq<Result<seq<Item>>>, k: nat)
    requires k <= |listings|
    ensures processed <= LedgerAfter(processed, listings[..k]) <= LedgerAfter(processed, listings)
    decreases |listings|
  {
    if listings != [] {
      var init := listings[..|listings| - 1];
      if k == |listings| {
        assert listings[..k] == listings;
        LedgerGrows(processed, init, |init|);
        assert init[..|init|] == init;
      } else {
        LedgerGrows(processed, init, k);
        assert init[..k] == listings[..k];
      }
    }
  }

  /** Across any run of passes, a contract is taken up at most once: no
      later pass takes up a key an earlier pass did. */
  lemma {:induction false} TakenUpAtMostOnce(processed: set<string>, listings: seq<Result<seq<Item>>>, i: nat, j: nat)
    requires i < j < |listings|
    ensures Keys(Pending(listings[i], LedgerAfter(processed, listings[..i])))
            !! Keys(Pending(listings[j], LedgerAfter(processed, listings[..j])))
  {
    var before := LedgerAfter(processed, listings[..i]);
    var later := LedgerAfter(processed, listings[..j]);
    assert listings[..j][..i + 1] == listings[..i + 1];
    assert listings[..i + 1][..i] == listings[..i];
    LedgerGrows(processed, listings[..j], i + 1);
    assert LedgerAfter(processed, listings[..i + 1]) == LedgerAfterPass(listings[i], before);
    forall k | k in Keys(Pending(listings[j], later))
      ensures k !in Keys(Pending(listings[i], before))
    {
      var c :| c in Pending(listings[j], later) && KeyOf(c) == k;
      SecondPassFindsNothing(listings[j], later);
    }
  }

  // ---------------------------------------------------------------------
  // The monitoring cadence

  /** Python's `a // b`, which rounds towards minus infinity. */
  function FloorDiv(a: int, b: int): int
    requires b != 0
  {
    if b > 0 then a / b else (-a) / (-b)
  }

  lemma FloorDivIsFloor(a: int, b: int)
    requires b != 0
    ensures FloorDiv(a, b) * b <= a < FloorDiv(a, b) * b + b || (b < 0 && FloorDiv(a, b) * b + b < a <= FloorDiv(a, b) * b)
  {
  }

  /** `iteration_count` after `passes` passes of the monitoring loop. */
  function CounterAfter(perSweep: int, passes: nat): int {
    if passes == 0 then 0
    else
      var count := CounterAfter(perSweep, passes - 1) + 1;
      if count >= perSweep then 0 else count
  }

  /** Whether pass number `pass` (from 1) runs the action-item sweep. */
  predicate SweepsOn(perSweep: int, pass: nat)
    requires pass >= 1
  {
    CounterAfter(perSweep, pass - 1) + 1 >= perSweep
  }

  /** The sweeps of the first `passes` passes, in order. */
  function SweepSchedule(perSweep: int, passes: nat): (s: seq<bool>)
    ensures |s| == passes
  {
    if passes == 0 then [] else SweepSchedule(perSweep, passes - 1) + [SweepsOn(perSweep, passes)]
  }

  /** After `k` full rounds of `perSweep` passes and `r` more, the counter is `r`. */
  lemma {:induction false} CounterAt(perSweep: int, k: nat, r: nat)
    requires perSweep >= 1 && r < perSweep
    ensures CounterAfter(perSweep, k * perSweep + r) == r
    decreases k, r
  {
    if r > 0 {
      CounterAt(perSweep, k, r - 1);
    } else if k > 0 {
      assert k * perSweep + r - 1 == (k - 1) * perSweep + (perSweep - 1);
      CounterAt(perSweep, k - 1, perSweep - 1);
    }
  }

  /** With `n = action_item_check_interval // check_interval`, the sweep runs
      on every n-th pass when n is positive, and on every pass otherwise. */
  lemma SweepCadence(perSweep: int, pass: nat)
    requires pass >= 1
    ensures perSweep >= 1 ==> (SweepsOn(perSweep, pass) <==> pass % perSweep == 0)
    ensures perSweep <= 1 ==> SweepsOn(perSweep, pass)
  {
    if perSweep >= 1 {
      var q, r := pass / perSweep, pass % perSweep;
      assert pass == q * perSweep + r;
      if r > 0 {
        CounterAt(perSweep, q, r - 1);
      } else {
        assert q >= 1;
        assert pass - 1 == (q - 1) * perSweep + (perSweep - 1);
        CounterAt(perSweep, q - 1, perSweep - 1);
      }
    } else {
      CounterNonPositive(perSweep, pass - 1);
    }
  }

  lemma {:induction false} CounterNonPositive(perSweep: int, passes: nat)
    requires perSweep < 1
    ensures CounterAfter(perSweep, passes) == 0
    decreases passes
  {
    if passes > 0 {
      CounterNonPositive(perSweep, passes - 1);
    }
  }
}
