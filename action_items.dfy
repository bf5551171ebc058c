/** The action-item detector of action_item_detector.py: reading the model's
    templated reply into action items, picking the urgent ones, and the alert
    e-mail that reports them.

    The model's reply, the clock and the SNS client are parameters. Of the
    regular expressions, the split on `ACTION ITEM <digits>:` is modelled on
    the text; what the per-field patterns capture inside one segment is a
    parameter (`Captures`), and what the code then does with each capture is
    modelled. */
module ActionItems {
  import opened Common
  import opened Text
  import opened Calendar

  // ---------------------------------------------------------------------
  // Splitting the reply into segments

  /** Length of the leading run of whitespace (`\s*`). */
  function SpaceRun(t: string): (n: nat)
    ensures n <= |t|
    ensures forall i :: 0 <= i < n ==> IsSpace(t[i])
    ensures n < |t| ==> !IsSpace(t[n])
  {
    if t != [] && IsSpace(t[0]) then 1 + SpaceRun(t[1..]) else 0
  }

  /** Length of the leading run of decimal digits (`\d+` when positive). */
  function DigitRun(t: string): (n: nat)
    ensures n <= |t|
    ensures forall i :: 0 <= i < n ==> IsDigit(t[i])
    ensures n < |t| ==> !IsDigit(t[n])
  {
    if t != [] && IsDigit(t[0]) then 1 + DigitRun(t[1..]) else 0
  }

  /** The length of the `ACTION ITEM\s*\d+:` marker (case-insensitive) that
      starts `t`, if one does. Both runs are greedy and need no backtracking:
      a whitespace run must end where the digits begin, and the digits where
      the colon is. */
  function MarkerLength(t: string): (r: Option<nat>)
    ensures r.Some? ==> 13 <= r.value <= |t|
  {
    if |t| < 11 || Lower(t[..11]) != "action item" then None
    else
      var w := SpaceRun(t[11..]);
      var d := DigitRun(t[11 + w..]);
      if d > 0 && 11 + w + d < |t| && t[11 + w + d] == ':' then Some(11 + w + d + 1) else None
  }

  /** A matcher gives, for a text, the length of the separator that starts
      it, if one does; a separator is never empty. */
  ghost predicate IsMatcher(marker: string -> Option<nat>) {
    forall t :: marker(t).Some? ==> 0 < marker(t).value <= |t|
  }

  lemma MarkerLengthIsMatcher()
    ensures IsMatcher(MarkerLength)
  {
    forall t ensures MarkerLength(t).Some? ==> 0 < MarkerLength(t).value <= |t| {
    }
  }

  /** `re.split` on the separators `marker` finds: `piece` is the text read
      since the last separator, `rest` what is still to be scanned. */
  function SplitRest(piece: string, rest: string, marker: string -> Option<nat>): (pieces: seq<string>)
    requires IsMatcher(marker)
    ensures |pieces| >= 1
    decreases |rest|
  {
    if rest == [] then [piece]
    else match marker(rest)
      case Some(n) => [piece] + SplitRest([], rest[n..], marker)
      case None => SplitRest(piece + [rest[0]], rest[1..], marker)
  }

  lemma SplitPastUnmarked(piece: string, rest: string, marker: string -> Option<nat>)
    requires IsMatcher(marker) && rest != [] && marker(rest).None?
    ensures SplitRest(piece, rest, marker) == SplitRest(piece + [rest[0]], rest[1..], marker)
  {
  }

  /** `re.split(r'ACTION ITEM\s*\d+:', reply, flags=re.IGNORECASE)[1:]`: the
      text after each marker, up to the next one. */
  function Segments(s: string): seq<string> {
    MarkerLengthIsMatcher();
    SplitRest([], s, MarkerLength)[1..]
  }

  /** No separator starts anywhere inside `u` when `t` follows it. */
  predicate Unmarked(u: string, t: string, marker: string -> Option<nat>) {
    forall k :: 0 <= k < |u| ==> marker(u[k..] + t).None?
  }

  /** Text in which no separator starts is only added to the current piece. */
  lemma {:induction false} SkipUnmarked(piece: string, u: string, t: string, marker: string -> Option<nat>)
    requires IsMatcher(marker) && Unmarked(u, t, marker)
    ensures SplitRest(piece, u + t, marker) == SplitRest(piece + u, t, marker)
    decreases |u|
  {
    if u == [] {
      assert u + t == t && piece + u == piece;
    } else {
      var rest := u + t;
      assert u[0..] + t == rest;
      SplitPastUnmarked(piece, rest, marker);
      assert rest[1..] == u[1..] + t && rest[0] == u[0];
      assert Unmarked(u[1..], t, marker) by {
        forall k | 0 <= k < |u[1..]| ensures marker(u[1..][k..] + t).None? {
          assert u[1..][k..] == u[k + 1..];
        }
      }
      SkipUnmarked(piece + [u[0]], u[1..], t, marker);
      assert piece + [u[0]] + u[1..] == piece + u;
    }
  }

  /** A reply without a marker has no segments, so it yields no items. */
  lemma NoMarkerNoSegments(s: string)
    requires Unmarked(s, [], MarkerLength)
    ensures Segments(s) == []
  {
    MarkerLengthIsMatcher();
    SkipUnmarked([], s, [], MarkerLength);
    assert s + [] == s && [] + s == s;
  }

  /** Text before the first marker is never read as part of a segment:
      prefixing it leaves the segments as they were. */
  lemma PreambleIgnored(preamble: string, t: string)
    requires MarkerLength(t).Some?
    requires Unmarked(preamble, t, MarkerLength)
    ensures Segments(preamble + t) == Segments(t)
  {
    MarkerLengthIsMatcher();
    SkipUnmarked([], preamble, t, MarkerLength);
    assert [] + preamble == preamble;
  }

  // ---------------------------------------------------------------------
  // Reading one segment

  /** What the field patterns capture in one segment, before the code
      processes it; None where a pattern does not match:
      `Type:\s*(\w+)`, `Description:\s*(.+?)(?:\n|Due Date:)`,
      `Due Date:\s*(\d{4}-\d{2}-\d{2})`, the two free-text date patterns in
      the order they are tried, `Priority:\s*(\w+)` and
      `Action Required:\s*(.+?)(?:\n\n|\Z)`. */
  datatype Captures = Captures(
    kind: Option<string>,
    description: Option<string>,
    isoDate: Option<string>,
    numericDate: Option<string>,
    spelledDate: Option<string>,
    priority: Option<string>,
    actionRequired: Option<string>)

  /** One action item, as the dict the parser emits: `due_date` and
      `days_until_due` are absent (None) unless found. */
  datatype ActionItem = ActionItem(
    kind: string,
    description: string,
    dueDate: Option<string>,
    daysUntilDue: Option<int>,
    priority: Option<string>,
    actionRequired: Option<string>,
    contract: string)

  /** A segment either yields an item, lacks a type or description, or
      raises (a `Due Date:` that `strptime` rejects). */
  datatype SegmentOutcome = Parsed(item: ActionItem) | Incomplete | Raised

  function LowerOpt(s: Option<string>): (r: Option<string>)
    ensures r.Some? <==> s.Some?
    ensures r.Some? ==> IsLowerCase(r.value)
  {
    match s
    case Some(v) => Some(Lower(v))
    case None => None
  }

  function StripOpt(s: Option<string>): (r: Option<string>)
    ensures r.Some? <==> s.Some?
    ensures r.Some? ==> IsStripped(r.value)
  {
    match s
    case Some(v) => Some(Strip(v))
    case None => None
  }

  /** The free-text due date: the first of the two fallback patterns that
      matched. */
  function FallbackDate(c: Captures): Option<string> {
    if c.numericDate.Some? then c.numericDate else c.spelledDate
  }

  predicate IsStripped(s: string) {
    s == [] || (!IsSpace(s[0]) && !IsSpace(s[|s| - 1]))
  }

  /** What every emitted item satisfies. */
  predicate WellFormedItem(item: ActionItem, filename: string, now: Instant)
    requires ValidInstant(now)
  {
    && item.contract == filename
    && IsLowerCase(item.kind)
    && IsStripped(item.description)
    && (item.priority.Some? ==> IsLowerCase(item.priority.value))
    && (item.actionRequired.Some? ==> IsStripped(item.actionRequired.value))
    && (item.daysUntilDue.Some? ==>
          item.dueDate.Some? && ParseIsoDate(item.dueDate.value).Some?
          && item.daysUntilDue.value == DaysUntil(ParseIsoDate(item.dueDate.value).value, now))
  }

  /** The body of the per-segment loop of `_parse_action_items`. */
  function ReadSegment(c: Captures, filename: string, now: Instant): (r: SegmentOutcome)
    requires ValidInstant(now)
    ensures r.Parsed? <==> c.kind.Some? && c.description.Some?
                           && (c.isoDate.None? || ParseIsoDate(c.isoDate.value).Some?)
    ensures r.Raised? <==> c.isoDate.Some? && ParseIsoDate(c.isoDate.value).None?
    ensures r.Parsed? ==> WellFormedItem(r.item, filename, now)
  {
    var due := if c.isoDate.Some? then ParseIsoDate(c.isoDate.value) else None;
    if c.isoDate.Some? && due.None? then Raised
    else if c.kind.None? || c.description.None? then Incomplete
    else
      var dueDate := if c.isoDate.Some? then c.isoDate else FallbackDate(c);
      var days := if c.isoDate.Some? then Some(DaysUntil(due.value, now)) else None;
      Parsed(ActionItem(Lower(c.kind.value), Strip(c.description.value), dueDate, days,
                        LowerOpt(c.priority), StripOpt(c.actionRequired), filename))
  }

  /** The items a sequence of segments yields when each is read by `read`:
      the parsed ones, in order. */
  function Harvest<T>(xs: seq<T>, read: T -> SegmentOutcome): (items: seq<ActionItem>)
    ensures |items| <= |xs|
  {
    if xs == [] then []
    else
      var outcome := read(xs[|xs| - 1]);
      Harvest(xs[..|xs| - 1], read) + (if outcome.Parsed? then [outcome.item] else [])
  }

  lemma {:induction false} HarvestParsed<T>(xs: seq<T>, read: T -> SegmentOutcome, item: ActionItem)
    requires item in Harvest(xs, read)
    ensures exists x :: x in xs && read(x) == Parsed(item)
  {
    var init := xs[..|xs| - 1];
    if item in Harvest(init, read) {
      HarvestParsed(init, read, item);
      var x :| x in init && read(x) == Parsed(item);
      assert x in xs;
    } else {
      assert read(xs[|xs| - 1]) == Parsed(item);
    }
  }

  lemma HarvestStep<T>(xs: seq<T>, i: nat, read: T -> SegmentOutcome)
    requires i < |xs|
    ensures Harvest(xs[..i + 1], read)
            == Harvest(xs[..i], read) + (if read(xs[i]).Parsed? then [read(xs[i]).item] else [])
  {
    assert xs[..i + 1][..i] == xs[..i];
  }

  lemma {:induction false} HarvestConcat<T>(a: seq<T>, b: seq<T>, read: T -> SegmentOutcome)
    ensures Harvest(a + b, read) == Harvest(a, read) + Harvest(b, read)
    decreases |b|
  {
    if b != [] {
      HarvestConcat(a, b[..|b| - 1], read);
      assert (a + b)[..|a + b| - 1] == a + b[..|b| - 1];
    } else {
      assert a + b == a;
    }
  }

  lemma HarvestSkip<T>(before: seq<T>, bad: T, after: seq<T>, read: T -> SegmentOutcome)
    requires !read(bad).Parsed?
    ensures Harvest(before + [bad] + after, read) == Harvest(before, read) + Harvest(after, read)
  {
    HarvestConcat(before + [bad], after, read);
    assert (before + [bad])[..|before + [bad]| - 1] == before;
  }

  /** The outcome of reading one segment at the moment `now`. */
  function Reader(filename: string, now: Instant, extract: string -> Captures): string -> SegmentOutcome
    requires ValidInstant(now)
  {
    segment => ReadSegment(extract(segment), filename, now)
  }

  /** The items the segments yield, in order. */
  function ItemsFrom(segments: seq<string>, filename: string, now: Instant, extract: string -> Captures): (items: seq<ActionItem>)
    requires ValidInstant(now)
    ensures |items| <= |segments|
    ensures forall item :: item in items ==> WellFormedItem(item, filename, now)
  {
    ItemsWellFormed(segments, filename, now, extract);
    Harvest(segments, Reader(filename, now, extract))
  }

  lemma ItemsWellFormed(segments: seq<string>, filename: string, now: Instant, extract: string -> Captures)
    requires ValidInstant(now)
    ensures forall item :: item in Harvest(segments, Reader(filename, now, extract)) ==> WellFormedItem(item, filename, now)
  {
    var read := Reader(filename, now, extract);
    forall item | item in Harvest(segments, read) ensures WellFormedItem(item, filename, now) {
      HarvestParsed(segments, read, item);
    }
  }

  lemma ItemsFromStep(segments: seq<string>, i: nat, filename: string, now: Instant, extract: string -> Captures)
    requires ValidInstant(now) && i < |segments|
    ensures var outcome := ReadSegment(extract(segments[i]), filename, now);
            ItemsFrom(segments[..i + 1], filename, now, extract)
            == ItemsFrom(segments[..i], filename, now, extract) + (if outcome.Parsed? then [outcome.item] else [])
  {
    HarvestStep(segments, i, Reader(filename, now, extract));
  }

  const NO_ITEMS: string := "no action items found"

  /** `_parse_action_items(reply, filename)` at the moment `now`. */
  function ParsedItems(reply: string, filename: string, now: Instant, extract: string -> Captures): seq<ActionItem>
    requires ValidInstant(now)
  {
    if Contains(Lower(reply), NO_ITEMS) then []
    else ItemsFrom(Segments(reply), filename, now, extract)
  }

  /** Segments are read independently of one another. */
  lemma ItemsFromConcat(a: seq<string>, b: seq<string>, filename: string, now: Instant, extract: string -> Captures)
    requires ValidInstant(now)
    ensures ItemsFrom(a + b, filename, now, extract)
            == ItemsFrom(a, filename, now, extract) + ItemsFrom(b, filename, now, extract)
  {
    HarvestConcat(a, b, Reader(filename, now, extract));
  }

  /** A segment without a type or description, or one whose due date makes
      `strptime` raise, is skipped, and the segments around it give the
      items they would give without it. */
  lemma BadSegmentSkipped(before: seq<string>, bad: string, after: seq<string>, filename: string, now: Instant, extract: string -> Captures)
    requires ValidInstant(now)
    requires !ReadSegment(extract(bad), filename, now).Parsed?
    ensures ItemsFrom(before + [bad] + after, filename, now, extract)
            == ItemsFrom(before, filename, now, extract) + ItemsFrom(after, filename, now, extract)
  {
    HarvestSkip(before, bad, after, Reader(filename, now, extract));
  }

  lemma ContainsInSuffix(p: string, t: string, sub: string)
    requires Contains(t, sub)
    ensures Contains(p + t, sub)
  {
    var i :| 0 <= i <= |t| && OccursAt(t, sub, i);
    assert (p + t)[|p| + i..|p| + i + |sub|] == t[i..i + |sub|];
    assert OccursAt(p + t, sub, |p| + i);
  }

  /** The items of a reply do not depend on what precedes its first marker
      (unless that text says there are no action items). */
  lemma PreambleYieldsNothing(preamble: string, t: string, filename: string, now: Instant, extract: string -> Captures)
    requires ValidInstant(now)
    requires MarkerLength(t).Some?
    requires Unmarked(preamble, t, MarkerLength)
    requires !Contains(Lower(preamble + t), NO_ITEMS)
    ensures ParsedItems(preamble + t, filename, now, extract) == ParsedItems(t, filename, now, extract)
  {
    PreambleIgnored(preamble, t);
    LowerConcat(preamble, t);
    if Contains(Lower(t), NO_ITEMS) {
      ContainsInSuffix(Lower(preamble), Lower(t), NO_ITEMS);
    }
  }

  /** With a valid `Due Date:`, the day count is computed from the date and
      the clock alone: the calendar difference at midnight, one less later
      in the day. Without one, there is no day count. */
  lemma DueDateDays(c: Captures, filename: string, now: Instant)
    requires ValidInstant(now)
    requires ReadSegment(c, filename, now).Parsed?
    ensures c.isoDate.Some? ==>
              var due := ParseIsoDate(c.isoDate.value).value;
              ReadSegment(c, filename, now).item.daysUntilDue
              == Some(Ordinal(due) - Ordinal(now.date) - (if now.micros == 0 then 0 else 1))
    ensures c.isoDate.None? ==>
              ReadSegment(c, filename, now).item.daysUntilDue.None?
              && ReadSegment(c, filename, now).item.dueDate == FallbackDate(c)
  {
    if c.isoDate.Some? {
      DaysUntilCalendar(ParseIsoDate(c.isoDate.value).value, now);
    }
  }

  // ---------------------------------------------------------------------
  // Urgency

  /** The urgency test of `filter_urgent_action_items`, branch by branch. */
  predicate IsUrgent(item: ActionItem) {
    item.daysUntilDue.Some? &&
    var d := item.daysUntilDue.value;
    if item.kind == "expiration" && 0 <= d <= 10 then true
    else if item.kind == "audit_due" && 0 <= d <= 5 then true
    else if item.kind == "payment_due" && 0 <= d <= 14 then true
    else if item.kind == "renewal" && 0 <= d <= 10 then true
    else if item.kind == "notice_period" && 0 <= d <= 7 then true
    else d <= 5
  }

  /** How many days ahead an item of each kind starts to be urgent. */
  function AlertWindow(kind: string): int {
    if kind == "expiration" then 10
    else if kind == "audit_due" then 5
    else if kind == "payment_due" then 14
    else if kind == "renewal" then 10
    else if kind == "notice_period" then 7
    else 5
  }

  /** The chain of tests amounts to one window per kind: an item is urgent
      exactly when it has a day count no larger than its kind's window. In
      particular every overdue item is urgent, whatever its kind. */
  lemma UrgencyWindows(item: ActionItem)
    ensures IsUrgent(item) <==> item.daysUntilDue.Some? && item.daysUntilDue.value <= AlertWindow(item.kind)
    ensures item.daysUntilDue.Some? && item.daysUntilDue.value <= 5 ==> IsUrgent(item)
  {
  }

  /** The urgent items, in their original order. */
  function UrgentItems(items: seq<ActionItem>): (urgent: seq<ActionItem>)
    ensures |urgent| <= |items|
  {
    if items == [] then []
    else UrgentItems(items[..|items| - 1]) + (if IsUrgent(items[|items| - 1]) then [items[|items| - 1]] else [])
  }

  /** `a` is `b` with some elements left out, the rest in order. */
  predicate IsSubsequence<T(==)>(a: seq<T>, b: seq<T>)
    decreases |b|
  {
    if a == [] then true
    else if b == [] then false
    else if a[|a| - 1] == b[|b| - 1] then IsSubsequence(a[..|a| - 1], b[..|b| - 1])
    else IsSubsequence(a, b[..|b| - 1])
  }

  lemma {:induction false} SubsequenceExtend<T>(a: seq<T>, b: seq<T>, x: T)
    requires IsSubsequence(a, b)
    ensures IsSubsequence(a, b + [x])
    decreases |b|, 1
  {
    assert (b + [x])[..|b|] == b;
    if a != [] && a[|a| - 1] == x {
      SubsequenceDropLast(a, b);
    }
  }

  lemma {:induction false} SubsequenceDropLast<T>(a: seq<T>, b: seq<T>)
    requires a != [] && IsSubsequence(a, b)
    ensures IsSubsequence(a[..|a| - 1], b)
    decreases |b|, 0
  {
    var init := b[..|b| - 1];
    assert b == init + [b[|b| - 1]];
    if a[|a| - 1] == b[|b| - 1] {
      SubsequenceExtend(a[..|a| - 1], init, b[|b| - 1]);
    } else {
      SubsequenceDropLast(a, init);
      SubsequenceExtend(a[..|a| - 1], init, b[|b| - 1]);
    }
  }

  /** Filtering keeps order and invents nothing. */
  lemma {:induction false} UrgentIsSubsequence(items: seq<ActionItem>)
    ensures IsSubsequence(UrgentItems(items), items)
    decreases |items|
  {
    if items != [] {
      var init := items[..|items| - 1];
      var last := items[|items| - 1];
      UrgentIsSubsequence(init);
      assert items == init + [last];
      if IsUrgent(last) {
        assert (UrgentItems(init) + [last])[..|UrgentItems(init)|] == UrgentItems(init);
      } else {
        assert UrgentItems(items) == UrgentItems(init);
        SubsequenceExtend(UrgentItems(init), init, last);
      }
    }
  }

  /** An item is kept exactly when it is urgent; so an item without a day
      count is never kept. */
  lemma {:induction false} UrgentMembership(items: seq<ActionItem>, x: ActionItem)
    ensures x in UrgentItems(items) <==> x in items && IsUrgent(x)
    decreases |items|
  {
    if items != [] {
      UrgentMembership(items[..|items| - 1], x);
      assert items == items[..|items| - 1] + [items[|items| - 1]];
    }
  }

  // ---------------------------------------------------------------------
  // The alert

  const DEFAULT_TOPIC_ARN: string := "arn:aws:sns:us-east-1:440588070262:contract-action-items"

  const FOOTER: string :=
    "\n---\nThis is an automated notification from the Contract Protection System.\n"
    + "Please review these contracts and take appropriate action.\n"

  function EmailHeader(count: nat): string {
    "Contract Action Items Alert\n\nYou have " + NatToString(count)
    + " urgent action item(s) requiring attention:\n\n"
  }

  /** `str(days_until_due)`, or "N/A". */
  function DaysText(days: Option<int>): string {
    match days
    case Some(d) => IntToString(d)
    case None => "N/A"
  }

  /** The block for the item numbered `number`. */
  function EntryText(number: nat, item: ActionItem): string {
    "\n" + NatToString(number) + ". " + ReplaceChar(Upper(item.kind), '_', ' ')
    + "\n   Contract: " + item.contract
    + "\n   Description: " + item.description
    + "\n   Due Date: " + item.dueDate.GetOr("N/A")
    + "\n   Days Until Due: " + DaysText(item.daysUntilDue)
    + "\n   Priority: " + Upper(item.priority.GetOr("medium"))
    + "\n   Action Required: " + item.actionRequired.GetOr("Review contract")
    + "\n   \n"
  }

  /** The blocks `block` gives for the elements of `xs`, numbered from 1. */
  function Numbered<T>(xs: seq<T>, block: (nat, T) -> string): string {
    if xs == [] then ""
    else Numbered(xs[..|xs| - 1], block) + block(|xs|, xs[|xs| - 1])
  }

  /** The k-th element (counting from 1) gets the block numbered k, right
      after the blocks of the elements before it. */
  lemma {:induction false} NumberedPrefix<T>(xs: seq<T>, k: nat, block: (nat, T) -> string)
    requires k < |xs|
    ensures StartsWith(Numbered(xs, block), Numbered(xs[..k], block) + block(k + 1, xs[k]))
    decreases |xs|
  {
    var init := xs[..|xs| - 1];
    var last := block(|xs|, xs[|xs| - 1]);
    if k == |xs| - 1 {
      assert xs[..k] == init;
      assert Numbered(xs, block)[..|Numbered(xs, block)|] == Numbered(xs, block);
    } else {
      NumberedPrefix(init, k, block);
      assert init[..k] == xs[..k] && init[k] == xs[k];
      StartsWithExtended(Numbered(init, block), last, Numbered(xs[..k], block) + block(k + 1, xs[k]));
    }
  }

  /** The blocks of all items, numbered from 1. */
  function Entries(items: seq<ActionItem>): string {
    Numbered(items, EntryText)
  }

  /** `_build_email_message(items)` */
  function EmailMessage(items: seq<ActionItem>): string {
    EmailHeader(|items|) + Entries(items) + FOOTER
  }

  /** The k-th item (counting from 1) is reported under the number k, right
      after the blocks of the items before it. */
  lemma EntryNumbering(items: seq<ActionItem>, k: nat)
    requires k < |items|
    ensures StartsWith(Entries(items), Entries(items[..k]) + EntryText(k + 1, items[k]))
  {
    NumberedPrefix(items, k, EntryText);
  }

  /** The subject line of the alert. */
  function Subject(count: nat): string {
    "\U{26A0}\U{FE0F} Contract Action Items - " + NatToString(count) + " Urgent Item(s)"
  }

  /** What is handed to SNS `publish`. */
  datatype Notification = Notification(topicArn: string, subject: string, message: string)

  // ---------------------------------------------------------------------
  // The detector object

  class ActionItemDetector {
    /** Whether `self.sns_client` was created. */
    var snsReady: bool
    var snsTopicArn: Option<string>
    var userEmail: Option<string>
    /** Whether a Box service was handed to the constructor. */
    const hasBoxService: bool

    /** `__init__`: the topic and e-mail come from the environment; creating
        the SNS client may fail, which leaves it unset. */
    constructor(envTopicArn: Option<string>, envUserEmail: Option<string>, snsClientFails: bool, boxService: bool)
      ensures snsReady == !snsClientFails
      ensures snsTopicArn == envTopicArn && userEmail == envUserEmail && hasBoxService == boxService
    {
      snsReady := !snsClientFails;
      snsTopicArn := envTopicArn;
      userEmail := envUserEmail;
      hasBoxService := boxService;
    }

    /** `analyze_contract_for_action_items`: the model's reply, or the error
        asking it raised, is `reply`; an error yields no items. */
    method AnalyzeContractForActionItems(reply: Result<string>, filename: string, now: Instant, extract: string -> Captures)
      returns (items: seq<ActionItem>)
      requires ValidInstant(now)
      ensures reply.Err? ==> items == []
      ensures reply.Ok? ==> items == ParsedItems(reply.value, filename, now, extract)
    {
      if reply.Err? {
        return [];
      }
      items := ParseActionItems(reply.value, filename, now, extract);
    }

    /** `_parse_action_items(reply, filename)` */
    method ParseActionItems(reply: string, filename: string, now: Instant, extract: string -> Captures)
      returns (items: seq<ActionItem>)
      requires ValidInstant(now)
      ensures items == ParsedItems(reply, filename, now, extract)
    {
      if Contains(Lower(reply), NO_ITEMS) {
        return [];
      }
      var segments := Segments(reply);
      items := [];
      var i := 0;
      while i < |segments|
        invariant 0 <= i <= |segments|
        invariant items == ItemsFrom(segments[..i], filename, now, extract)
      {
        var outcome := ReadSegment(extract(segments[i]), filename, now);
        if outcome.Parsed? {
          items := items + [outcome.item];
        }
        ItemsFromStep(segments, i, filename, now, extract);
        i := i + 1;
      }
      assert segments[..i] == segments;
    }

    /** `filter_urgent_action_items(items)` */
    method FilterUrgentActionItems(items: seq<ActionItem>) returns (urgent: seq<ActionItem>)
      ensures urgent == UrgentItems(items)
    {
      urgent := [];
      var i := 0;
      while i < |items|
        invariant 0 <= i <= |items|
        invariant urgent == UrgentItems(items[..i])
      {
        var item := items[i];
        var isUrgent := false;
        if item.daysUntilDue.Some? {
          var days := item.daysUntilDue.value;
          if item.kind == "expiration" && 0 <= days <= 10 {
            isUrgent := true;
          } else if item.kind == "audit_due" && 0 <= days <= 5 {
            isUrgent := true;
          } else if item.kind == "payment_due" && 0 <= days <= 14 {
            isUrgent := true;
          } else if item.kind == "renewal" && 0 <= days <= 10 {
            isUrgent := true;
          } else if item.kind == "notice_period" && 0 <= days <= 7 {
            isUrgent := true;
          } else if days <= 5 {
            isUrgent := true;
          }
        }
        if isUrgent {
          urgent := urgent + [item];
        }
        assert items[..i + 1][..i] == items[..i];
        i := i + 1;
      }
      assert items[..i] == items;
    }

    /** `_build_email_message(items)` */
    method BuildEmailMessage(items: seq<ActionItem>) returns (message: string)
      ensures message == EmailMessage(items)
    {
      var body := "";
      var i := 0;
      while i < |items|
        invariant 0 <= i <= |items|
        invariant body == Entries(items[..i])
      {
        body := body + EntryText(i + 1, items[i]);
        assert items[..i + 1][..i] == items[..i];
        i := i + 1;
      }
      assert items[..i] == items;
      message := EmailHeader(|items|) + body + FOOTER;
    }

    /** `send_notification(items)`: `publishFails` says whether SNS rejects
        the publish request. `request` is the request handed to SNS, if one
        is. */
    method SendNotification(items: seq<ActionItem>, publishFails: bool) returns (ok: bool, request: Option<Notification>)
      ensures ok <==> snsReady && Truthy(userEmail) && (items == [] || (Truthy(snsTopicArn) && !publishFails))
      ensures request.Some? <==> snsReady && Truthy(userEmail) && items != [] && Truthy(snsTopicArn)
      ensures request.Some? ==> request.value == Notification(snsTopicArn.value, Subject(|items|), EmailMessage(items))
    {
      if !snsReady {
        return false, None;
      }
      if !Truthy(userEmail) {
        return false, None;
      }
      if items == [] {
        return true, None;
      }
      var subject := Subject(|items|);
      var body := BuildEmailMessage(items);
      if Truthy(snsTopicArn) {
        request := Some(Notification(snsTopicArn.value, subject, body));
        ok := !publishFails;
      } else {
        ok, request := false, None;
      }
    }

    /** `get_user_email_from_box()`: `boxReply` is what
        `get_current_user_email` returns or raises, `envTopicArn` the
        AWS_SNS_TOPIC_ARN variable. A Box e-mail is remembered, and a missing
        topic is then filled in from the variable or the built-in default. */
    method GetUserEmailFromBox(boxReply: Result<Option<string>>, envTopicArn: Option<string>) returns (email: Option<string>)
      modifies this
      ensures Truthy(old(userEmail)) ==> email == old(userEmail) && unchanged(this)
      ensures !Truthy(old(userEmail)) && hasBoxService && boxReply.Ok? && Truthy(boxReply.value) ==>
                && email == boxReply.value && userEmail == email
                && snsTopicArn == (if Truthy(old(snsTopicArn)) then old(snsTopicArn) else Some(envTopicArn.GetOr(DEFAULT_TOPIC_ARN)))
                && snsReady == old(snsReady)
      ensures !Truthy(old(userEmail)) && !(hasBoxService && boxReply.Ok? && Truthy(boxReply.value)) ==>
                email.None? && unchanged(this)
    {
      if Truthy(userEmail) {
        return userEmail;
      }
      if hasBoxService && boxReply.Ok? && Truthy(boxReply.value) {
        userEmail := boxReply.value;
        if !Truthy(snsTopicArn) {
          snsTopicArn := Some(envTopicArn.GetOr(DEFAULT_TOPIC_ARN));
        }
        return boxReply.value;
      }
      email := None;
    }
  }
}
