/** The client view of a user's logs: each log's `notes` parsed into its
    structured data, the list narrowed by the selected tab and the search
    term, and the page state the delete dialog and the notification change.
    The same logic appears twice in the application, in the current view and
    in its older inline form; both are this module. */
module LogsView {
  import opened Wrappers
  import opened Strings
  import opened Seqs
  import opened Json
  import opened Store
  import opened Forms

  /** A log as the view holds it: the stored item and what its notes parsed to. */
  datatype ParsedLog = ParsedLog(log: Item, parsedData: Value)

  /** `parsedData` for one log. `parse` is `JSON.parse`, None where it throws.
      Missing notes are null, and `JSON.parse(null)` is null. */
  function ParsedData(notes: Option<string>, parse: string -> Option<Value>): Value {
    match notes
    case None => Scalar(Null)
    case Some(text) =>
      match parse(text)
      case Some(v) => v
      case None => Obj([("userNotes", Str(text))])
  }

  /** `parsedLogs`: every log, in order, with its parsed data. */
  function ParseLogs(logs: seq<Item>, parse: string -> Option<Value>): (r: seq<ParsedLog>)
    ensures |r| == |logs|
    ensures forall i :: 0 <= i < |logs| ==> r[i] == ParsedLog(logs[i], ParsedData(logs[i].notes, parse))
    ensures forall i :: 0 <= i < |logs| && logs[i].notes.None? ==> r[i].parsedData == Scalar(Null)
  {
    Map(logs, (it: Item) => ParsedLog(it, ParsedData(it.notes, parse)))
  }

  /** Notes that are not JSON are kept whole as the log's `userNotes`, and
      notes that are JSON are whatever they parse to; a log without notes
      parses to null, which any non-empty search then throws on. */
  lemma NotesFallBackToUserNotes(text: string, parse: string -> Option<Value>, term: string)
    ensures parse(text).None? ==> GetString(ParsedData(Some(text), parse), "userNotes") == Some(text)
    ensures parse(text).Some? ==> ParsedData(Some(text), parse) == parse(text).value
    ensures term != "" ==> MatchesSearch(term, ParsedData(None, parse)) == Err(SearchTypeError)
  {
    if parse(text).None? {
      assert Get(Obj([("userNotes", Str(text))]), "userNotes") == Some(Str(text));
    }
  }

  /** `matchesTab`: tab 0 is every log, tab 1 the meals, tab 2 the workouts. */
  predicate MatchesTab(tab: int, kind: Option<string>) {
    tab == 0 || (tab == 1 && kind == Some("MEAL")) || (tab == 2 && kind == Some("WORKOUT"))
  }

  /** Which logs each tab shows. */
  lemma TabsSelectByType(tab: int, kind: Option<string>)
    ensures tab == 0 ==> MatchesTab(tab, kind)
    ensures tab == 1 ==> (MatchesTab(tab, kind) <==> kind == Some("MEAL"))
    ensures tab == 2 ==> (MatchesTab(tab, kind) <==> kind == Some("WORKOUT"))
    ensures tab != 0 && tab != 1 && tab != 2 ==> !MatchesTab(tab, kind)
  {
  }

  /** The members of the parsed data the search looks into, in the order it tries them. */
  const SearchedFields: seq<string> := ["userNotes", "foods", "workoutType", "mealType"]

  /** What the search throws when the parsed data is null or a searched member
      is a number: reading a member of null, or calling `toLowerCase` on a number. */
  const SearchTypeError := "TypeError"

  /** `data.<name>?.toLowerCase().includes(needle)`: false when the member is
      missing or null, a `TypeError` when it is a number. */
  function FieldIncludes(data: Value, name: string, needle: string): Result<bool, string> {
    match Get(data, name)
    case None => Ok(false)
    case Some(Null) => Ok(false)
    case Some(Str(s)) => Ok(Includes(Lower(s), needle))
    case Some(Num(_)) => Err(SearchTypeError)
  }

  /** The `||` chain over the searched members: it stops at the first member
      that includes the needle, and a member that throws stops it too. */
  function AnyFieldIncludes(data: Value, names: seq<string>, needle: string): Result<bool, string>
    decreases |names|
  {
    if |names| == 0 then Ok(false)
    else
      match FieldIncludes(data, names[0], needle)
      case Err(e) => Err(e)
      case Ok(true) => Ok(true)
      case Ok(false) => AnyFieldIncludes(data, names[1..], needle)
  }

  /** `matchesSearch`: an empty term matches everything; otherwise the
      lower-cased term is looked for in the lower-cased searched members. */
  function MatchesSearch(term: string, data: Value): Result<bool, string> {
    if term == "" then Ok(true)
    else if data == Scalar(Null) then Err(SearchTypeError)
    else AnyFieldIncludes(data, SearchedFields, Lower(term))
  }

  /** Parsed data the search can look into without throwing: not null, and
      every searched member a string, null or missing. */
  predicate Searchable(data: Value) {
    data != Scalar(Null) &&
    forall i :: 0 <= i < |SearchedFields| ==> !(Get(data, SearchedFields[i]).Some? && Get(data, SearchedFields[i]).value.Num?)
  }

  /** The term occurs, ignoring case, in one of the searched string members. */
  predicate FoundIn(data: Value, names: seq<string>, needle: string) {
    exists i :: 0 <= i < |names| && GetString(data, names[i]).Some? && Includes(Lower(GetString(data, names[i]).value), needle)
  }

  lemma {:induction false} AnyFieldIncludesMeaning(data: Value, names: seq<string>, needle: string)
    requires forall i :: 0 <= i < |names| ==> !(Get(data, names[i]).Some? && Get(data, names[i]).value.Num?)
    ensures AnyFieldIncludes(data, names, needle) == Ok(FoundIn(data, names, needle))
    decreases |names|
  {
    if |names| > 0 {
      AnyFieldIncludesMeaning(data, names[1..], needle);
      if FieldIncludes(data, names[0], needle) == Ok(true) {
        assert GetString(data, names[0]).Some? && Includes(Lower(GetString(data, names[0]).value), needle);
      } else {
        if FoundIn(data, names, needle) {
          var i :| 0 <= i < |names| && GetString(data, names[i]).Some? && Includes(Lower(GetString(data, names[i]).value), needle);
          assert i != 0;
          assert names[1..][i - 1] == names[i];
        }
        if FoundIn(data, names[1..], needle) {
          var i :| 0 <= i < |names[1..]| && GetString(data, names[1..][i]).Some? && Includes(Lower(GetString(data, names[1..][i]).value), needle);
          assert names[i + 1] == names[1..][i];
        }
      }
    }
  }

  /** On data it can look into, the search matches exactly when the term is
      empty or occurs, ignoring case, in userNotes, foods, workoutType or
      mealType; it throws only on data it cannot look into. */
  lemma SearchMeaning(term: string, data: Value)
    ensures Searchable(data) ==> MatchesSearch(term, data) == Ok(term == "" || FoundIn(data, SearchedFields, Lower(term)))
    ensures MatchesSearch(term, data).Err? ==> term != "" && !Searchable(data)
  {
    if term != "" && data != Scalar(Null) {
      if Searchable(data) {
        AnyFieldIncludesMeaning(data, SearchedFields, Lower(term));
      } else {
        AnyFieldThrowsOnlyOnNumbers(data, SearchedFields, Lower(term));
      }
    }
  }

  lemma {:induction false} AnyFieldThrowsOnlyOnNumbers(data: Value, names: seq<string>, needle: string)
    ensures AnyFieldIncludes(data, names, needle).Err? ==>
      exists i :: 0 <= i < |names| && Get(data, names[i]).Some? && Get(data, names[i]).value.Num?
    decreases |names|
  {
    if |names| > 0 && FieldIncludes(data, names[0], needle) == Ok(false) {
      AnyFieldThrowsOnlyOnNumbers(data, names[1..], needle);
      if AnyFieldIncludes(data, names[1..], needle).Err? {
        var i :| 0 <= i < |names[1..]| && Get(data, names[1..][i]).Some? && Get(data, names[1..][i]).value.Num?;
        assert names[i + 1] == names[1..][i];
      }
    }
  }

  /** The search ignores the case of the term: a lower-cased term finds what the term finds. */
  lemma SearchIgnoresCase(term: string, data: Value)
    ensures MatchesSearch(Lower(term), data) == MatchesSearch(term, data)
  {
    LowerIdempotent(term);
  }

  /** The log stays in the list: it is on the tab and the search matches it. */
  predicate Kept(tab: int, term: string, p: ParsedLog) {
    MatchesTab(tab, p.log.kind) && MatchesSearch(term, p.parsedData) == Ok(true)
  }

  /** `filteredLogs`: the logs on the tab that the search matches, in order;
      Err when the search throws on any log, as both tests run on every log. */
  function FilteredLogs(parsed: seq<ParsedLog>, tab: int, term: string): Result<seq<ParsedLog>, string>
    decreases |parsed|
  {
    if |parsed| == 0 then Ok([])
    else
      match MatchesSearch(term, parsed[0].parsedData)
      case Err(e) => Err(e)
      case Ok(found) =>
        match FilteredLogs(parsed[1..], tab, term)
        case Err(e) => Err(e)
        case Ok(rest) => Ok(if MatchesTab(tab, parsed[0].log.kind) && found then [parsed[0]] + rest else rest)
  }

  /** The filter throws exactly when the search throws on some log; otherwise
      it keeps exactly the logs on the tab that the search matches. */
  lemma {:induction false} FilteredLogsMeaning(parsed: seq<ParsedLog>, tab: int, term: string)
    ensures FilteredLogs(parsed, tab, term).Err? <==> exists i :: 0 <= i < |parsed| && MatchesSearch(term, parsed[i].parsedData).Err?
    ensures FilteredLogs(parsed, tab, term).Ok? ==> FilteredLogs(parsed, tab, term).value == Filter(parsed, p => Kept(tab, term, p))
    decreases |parsed|
  {
    if |parsed| > 0 {
      FilteredLogsMeaning(parsed[1..], tab, term);
      if exists i :: 0 <= i < |parsed[1..]| && MatchesSearch(term, parsed[1..][i].parsedData).Err? {
        var i :| 0 <= i < |parsed[1..]| && MatchesSearch(term, parsed[1..][i].parsedData).Err?;
        assert parsed[i + 1] == parsed[1..][i];
      }
      if exists i :: 0 <= i < |parsed| && MatchesSearch(term, parsed[i].parsedData).Err? {
        var i :| 0 <= i < |parsed| && MatchesSearch(term, parsed[i].parsedData).Err?;
        if i > 0 {
          assert parsed[1..][i - 1] == parsed[i];
        }
      }
    }
  }

  /** The filtered list is the parsed list with some logs left out: the ones
      it keeps are on the tab, match the search, and appear in their original order. */
  lemma FilteredKeepsOrder(parsed: seq<ParsedLog>, tab: int, term: string)
    ensures FilteredLogs(parsed, tab, term).Ok? ==>
      var r := FilteredLogs(parsed, tab, term).value;
      IsSubsequence(r, parsed) &&
      (forall i :: 0 <= i < |r| ==> Kept(tab, term, r[i])) &&
      (forall i :: 0 <= i < |parsed| && Kept(tab, term, parsed[i]) ==> parsed[i] in r)
  {
    FilteredLogsMeaning(parsed, tab, term);
    FilterIsSubsequence(parsed, p => Kept(tab, term, p));
  }

  /** The first tab with no search term shows every log. */
  lemma {:induction false} AllTabShowsEverything(parsed: seq<ParsedLog>)
    ensures FilteredLogs(parsed, 0, "") == Ok(parsed)
    decreases |parsed|
  {
    if |parsed| > 0 {
      AllTabShowsEverything(parsed[1..]);
      assert [parsed[0]] + parsed[1..] == parsed;
    }
  }

  /** What the page shows under the controls. */
  datatype Listing = EmptyState(searchTerm: string) | LogsList(logs: seq<ParsedLog>)

  /** The empty state, told which term found nothing, when the filtered list
      is empty; the list of filtered logs otherwise. */
  function Shown(filtered: seq<ParsedLog>, term: string): (v: Listing)
    ensures v.EmptyState? <==> |filtered| == 0
    ensures v.EmptyState? ==> v.searchTerm == term
    ensures v.LogsList? ==> v.logs == filtered && |v.logs| > 0
  {
    if |filtered| == 0 then EmptyState(term) else LogsList(filtered)
  }

  datatype DeleteDialog = DeleteDialog(open: bool, logId: string, logType: string)

  datatype Severity = Success | Failure

  datatype Notice = Notice(open: bool, message: string, severity: Severity)

  const ClosedDialog := DeleteDialog(false, "", "")
  const LogPrefix := "LOG#"
  const DeletedMessage := "Registro eliminado con \U{00E9}xito"
  const NotDeletedMessage := "Error al eliminar el registro"

  /** The id the delete dialog holds for a log's sort key: `replace('LOG#', '')`. */
  function DialogLogId(sk: string): string {
    ReplaceFirst(sk, LogPrefix, "")
  }

  /** The dialog gets the log id the sort key was made from, and a key without
      the prefix is kept as it is. */
  lemma DialogLogIdStripsPrefix(sk: string)
    ensures StartsWith(sk, LogPrefix) ==> DialogLogId(sk) == sk[|LogPrefix|..]
    ensures !Includes(sk, LogPrefix) ==> DialogLogId(sk) == sk
  {
    if StartsWith(sk, LogPrefix) {
      assert sk == LogPrefix + sk[|LogPrefix|..];
      ReplacePrefixWithEmpty(LogPrefix, sk[|LogPrefix|..]);
    } else if !Includes(sk, LogPrefix) {
      ReplaceFirstAbsent(sk, LogPrefix, "");
    }
  }

  /** The notification a confirmed delete leaves behind. */
  function DeleteNotice(deleted: bool): (n: Notice)
    ensures n.open
    ensures n.severity == Success <==> deleted
    ensures n.message == (if deleted then DeletedMessage else NotDeletedMessage)
  {
    if deleted then Notice(true, DeletedMessage, Success) else Notice(true, NotDeletedMessage, Failure)
  }

  /** The page's state: the selected tab, the search term, the delete dialog,
      the notification, and how often the router refreshed the page. */
  class LogsPage {
    const initialLogs: seq<Item>
    const parse: string -> Option<Value>
    var currentTab: int
    var searchTerm: string
    var deleteDialog: DeleteDialog
    var notice: Notice
    var refreshes: nat

    constructor (logs: seq<Item>, parseJson: string -> Option<Value>)
      ensures initialLogs == logs && parse == parseJson
      ensures currentTab == 0 && searchTerm == ""
      ensures deleteDialog == ClosedDialog
      ensures notice == Notice(false, "", Success)
      ensures refreshes == 0
    {
      initialLogs := logs;
      parse := parseJson;
      currentTab := 0;
      searchTerm := "";
      deleteDialog := ClosedDialog;
      notice := Notice(false, "", Success);
      refreshes := 0;
    }

    /** The logs shown under the current tab and search term, or Err when the search throws. */
    function Filtered(): Result<seq<ParsedLog>, string>
      reads this
    {
      FilteredLogs(ParseLogs(initialLogs, parse), currentTab, searchTerm)
    }

    /** `onTabChange` */
    method SelectTab(tab: int)
      modifies this
      ensures currentTab == tab
      ensures searchTerm == old(searchTerm) && deleteDialog == old(deleteDialog)
      ensures notice == old(notice) && refreshes == old(refreshes)
    {
      currentTab := tab;
    }

    /** `onSearchChange` */
    method Search(term: string)
      modifies this
      ensures searchTerm == term
      ensures currentTab == old(currentTab) && deleteDialog == old(deleteDialog)
      ensures notice == old(notice) && refreshes == old(refreshes)
    {
      searchTerm := term;
    }

    /** `handleDeleteClick`: the dialog opens on the log, its id without the prefix. */
    method HandleDeleteClick(sk: string, logType: string)
      modifies this
      ensures deleteDialog == DeleteDialog(true, DialogLogId(sk), logType)
      ensures currentTab == old(currentTab) && searchTerm == old(searchTerm)
      ensures notice == old(notice) && refreshes == old(refreshes)
    {
      var id := ReplaceFirst(sk, LogPrefix, "");
      deleteDialog := DeleteDialog(true, id, logType);
    }

    /** `handleDeleteConfirm`: the form sent to `deleteLogAction` carries the
        dialog's log id; `deleteLog` says whether that action resolves. A
        resolved delete notifies success and refreshes, a rejected one
        notifies the failure; the dialog is closed and emptied either way. */
    method HandleDeleteConfirm(deleteLog: Entries -> bool) returns (sent: Entries)
      modifies this
      ensures sent == [("logId", old(deleteDialog.logId))]
      ensures notice == DeleteNotice(deleteLog(sent))
      ensures refreshes == old(refreshes) + (if deleteLog(sent) then 1 else 0)
      ensures deleteDialog == ClosedDialog
      ensures currentTab == old(currentTab) && searchTerm == old(searchTerm)
    {
      var form := new FormBuffer([]);
      form.Append("logId", deleteDialog.logId);
      sent := form.entries;
      if deleteLog(sent) {
        notice := Notice(true, DeletedMessage, Success);
        refreshes := refreshes + 1;
      } else {
        notice := Notice(true, NotDeletedMessage, Failure);
      }
      deleteDialog := ClosedDialog;
    }

    /** The dialog's `onClose`. */
    method CloseDialog()
      modifies this
      ensures deleteDialog == ClosedDialog
      ensures currentTab == old(currentTab) && searchTerm == old(searchTerm)
      ensures notice == old(notice) && refreshes == old(refreshes)
    {
      deleteDialog := ClosedDialog;
    }

    /** The notification's `onClose`: it closes and keeps its message and severity. */
    method CloseNotice()
      modifies this
      ensures notice == old(notice).(open := false)
      ensures currentTab == old(currentTab) && searchTerm == old(searchTerm)
      ensures deleteDialog == old(deleteDialog) && refreshes == old(refreshes)
    {
      notice := notice.(open := false);
    }
  }

  /** The calorie balance as the older view prints it: a '+' before a positive
      balance, and the number as it is otherwise. */
  function BalanceLabel(balance: int): (r: string)
    ensures balance <= 0 ==> r == IntString(balance)
    ensures balance > 0 ==> r == "+" + IntString(balance)
  {
    (if balance > 0 then "+" else "") + IntString(balance)
  }

  /** The label starts with '+' exactly when the balance is positive, and
      `parseInt` reads the balance back from it. */
  lemma BalanceLabelReadsBack(balance: int)
    ensures StartsWith(BalanceLabel(balance), "+") <==> balance > 0
    ensures ParseInt(BalanceLabel(balance)) == Some(balance)
  {
    if balance > 0 {
      PlusSignedReadsBack(balance);
    } else {
      IntRoundTrip(balance);
      UnsignedOrMinus(balance);
    }
  }

  lemma UnsignedOrMinus(i: int)
    ensures IntString(i)[0] != '+'
  {
    if i >= 0 {
      assert IsDigit(DecimalString(i)[0]);
    }
  }

  lemma PlusSignedReadsBack(n: nat)
    requires n > 0
    ensures ParseInt("+" + DecimalString(n)) == Some(n)
  {
    SignedDigits('+', n);
    assert "+" + DecimalString(n) == ['+'] + DecimalString(n);
  }
}
