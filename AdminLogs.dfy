/** The system log page: three counters over the loaded entries and a filter
    by action and by a search over detail and user. */
module AdminLogs {
  import opened Text
  import opened Seqs
  import opened Entities

  /** One audit entry; the user may be missing. */
  datatype LogEntry = LogEntry(action: string, detail: string, user: Option<string>)

  /** Counted as a success: the action mentions "generar" or "login", ignoring case. */
  predicate IsExito(l: LogEntry)
  {
    Contains(ToLower(l.action), "generar") || Contains(ToLower(l.action), "login")
  }

  /** Counted as a failure: the action mentions "fallo", ignoring case. */
  predicate IsFallo(l: LogEntry)
  {
    Contains(ToLower(l.action), "fallo")
  }

  datatype Stats = Stats(total: int, exitos: int, fallos: int)

  /** `calcularStats` */
  function ComputeStats(lista: seq<LogEntry>): (s: Stats)
    ensures s.total == |lista|
    ensures 0 <= s.exitos <= s.total && 0 <= s.fallos <= s.total
  {
    Stats(|lista|, |Filter(lista, IsExito)|, |Filter(lista, IsFallo)|)
  }

  /** The counters of two lists put together are the sums of their counters. */
  lemma StatsAdditive(a: seq<LogEntry>, b: seq<LogEntry>)
    ensures var s := ComputeStats(a + b);
            var sa := ComputeStats(a);
            var sb := ComputeStats(b);
            s == Stats(sa.total + sb.total, sa.exitos + sb.exitos, sa.fallos + sb.fallos)
  {
    FilterAppend(a, b, IsExito);
    FilterAppend(a, b, IsFallo);
  }

  /** A list with no success and no failure entry has both counters at 0;
      when every entry is both, both counters equal the total. */
  lemma StatsExtremes(lista: seq<LogEntry>)
    ensures (forall i :: 0 <= i < |lista| ==> !IsExito(lista[i]) && !IsFallo(lista[i])) ==>
              ComputeStats(lista).exitos == 0 && ComputeStats(lista).fallos == 0
    ensures (forall i :: 0 <= i < |lista| ==> IsExito(lista[i]) && IsFallo(lista[i])) ==>
              ComputeStats(lista).exitos == |lista| && ComputeStats(lista).fallos == |lista|
  {
    if forall i :: 0 <= i < |lista| ==> !IsExito(lista[i]) && !IsFallo(lista[i]) {
      FilterNone(lista, IsExito);
      FilterNone(lista, IsFallo);
    }
    if forall i :: 0 <= i < |lista| ==> IsExito(lista[i]) && IsFallo(lista[i]) {
      FilterAllKept(lista, IsExito);
      FilterAllKept(lista, IsFallo);
    }
  }

  /** One entry adds 1 to the total, 1 to the successes exactly when its
      action is a success and 1 to the failures exactly when it is a failure;
      with `StatsAdditive` this fixes the counters of every list. */
  lemma StatsSingleton(l: LogEntry)
    ensures ComputeStats([l]) == Stats(1, if IsExito(l) then 1 else 0, if IsFallo(l) then 1 else 0)
  {
  }

  /** The counters of a list, entry by entry from the front. */
  lemma {:induction false} StatsCons(l: LogEntry, rest: seq<LogEntry>)
    ensures var s := ComputeStats([l] + rest);
            var r := ComputeStats(rest);
            s == Stats(r.total + 1, r.exitos + (if IsExito(l) then 1 else 0), r.fallos + (if IsFallo(l) then 1 else 0))
  {
    StatsAdditive([l], rest);
    StatsSingleton(l);
  }

  // How the counters classify the actions the filter offers.

  lemma GenerarCuponIsExito(detail: string, user: Option<string>)
    ensures IsExito(LogEntry("GENERAR_CUPON", detail, user)) && !IsFallo(LogEntry("GENERAR_CUPON", detail, user))
  {
    LowerGenerarCupon();
    GenerarCuponKeywords(ToLower("GENERAR_CUPON"));
  }

  lemma LowerGenerarCupon()
    ensures ToLower("GENERAR_CUPON") == "generar_cupon"
  {
  }

  lemma GenerarCuponKeywords(low: string)
    requires low == "generar_cupon"
    ensures Contains(low, "generar") && !Contains(low, "fallo")
  {
    assert low[..7] == "generar";
    MissingChar(low, "fallo", 0);
  }

  lemma FalloCuponIsFallo(detail: string, user: Option<string>)
    ensures !IsExito(LogEntry("FALLO_CUPON", detail, user)) && IsFallo(LogEntry("FALLO_CUPON", detail, user))
  {
    LowerFalloCupon();
    FalloCuponKeywords(ToLower("FALLO_CUPON"));
  }

  lemma LowerFalloCupon()
    ensures ToLower("FALLO_CUPON") == "fallo_cupon"
  {
  }

  lemma FalloCuponKeywords(low: string)
    requires low == "fallo_cupon"
    ensures Contains(low, "fallo") && !Contains(low, "generar") && !Contains(low, "login")
  {
    assert low[..5] == "fallo";
    MissingChar(low, "generar", 0);
    MissingChar(low, "login", 2);
  }

  lemma CuponAnuladoUncounted(detail: string, user: Option<string>)
    ensures !IsExito(LogEntry("CUPON_ANULADO", detail, user)) && !IsFallo(LogEntry("CUPON_ANULADO", detail, user))
  {
    LowerCuponAnulado();
    NoKeyword(ToLower("CUPON_ANULADO"));
  }

  lemma LowerCuponAnulado()
    ensures ToLower("CUPON_ANULADO") == "cupon_anulado"
  {
  }

  lemma NoKeyword(low: string)
    requires low == "cupon_anulado"
    ensures !Contains(low, "generar") && !Contains(low, "login") && !Contains(low, "fallo")
  {
    MissingChar(low, "generar", 0);
    MissingChar(low, "login", 2);
    MissingChar(low, "fallo", 0);
  }

  lemma MissingChar(s: string, t: string, k: int)
    requires 0 <= k < |t| && t[k] !in s
    ensures !Contains(s, t)
  {
    ContainsKeepsChars(s, t);
  }

  /** A failed login mentions both "fallo" and "login", so it is counted as a
      success and as a failure at once. */
  lemma FalloLoginCountedTwice(detail: string, user: Option<string>)
    ensures IsExito(LogEntry("FALLO_LOGIN", detail, user)) && IsFallo(LogEntry("FALLO_LOGIN", detail, user))
  {
    LowerFalloLogin();
    FalloLoginKeywords(ToLower("FALLO_LOGIN"));
  }

  lemma LowerFalloLogin()
    ensures ToLower("FALLO_LOGIN") == "fallo_login"
  {
  }

  lemma FalloLoginKeywords(low: string)
    requires low == "fallo_login"
    ensures Contains(low, "fallo") && Contains(low, "login")
  {
    assert low[..5] == "fallo";
    assert StartsWith("login", "login");
    ContainsInContext("fallo_", "login", "", "login");
    assert "fallo_" + "login" + "" == low;
  }

  // ---------------------------------------------------------------------------
  // Filtering

  /** `l => l.action === actionFilter` */
  function HasAction(actionFilter: string): LogEntry -> bool
  {
    (l: LogEntry) => l.action == actionFilter
  }

  /** The search on an already trimmed and lower-cased term: the detail, or
      the user when there is one. */
  function MatchesTerm(term: string): LogEntry -> bool
  {
    (l: LogEntry) => Contains(ToLower(l.detail), term) || (l.user.Some? && Contains(ToLower(l.user.value), term))
  }

  /** `searchTerm.trim().toLowerCase()` */
  function Term(searchTerm: string): string
  {
    ToLower(Trim(searchTerm))
  }

  /** `logsFiltrados`: the action filter first, then the search. */
  function FilterLogs(logs: seq<LogEntry>, searchTerm: string, actionFilter: string): seq<LogEntry>
  {
    var term := Term(searchTerm);
    var porAccion := if actionFilter != "" then Filter(logs, HasAction(actionFilter)) else logs;
    if term != "" then Filter(porAccion, MatchesTerm(term)) else porAccion
  }

  /** Whether one entry passes both filters. */
  predicate Kept(l: LogEntry, searchTerm: string, actionFilter: string)
  {
    && (actionFilter == "" || l.action == actionFilter)
    && (Term(searchTerm) == "" || MatchesTerm(Term(searchTerm))(l))
  }

  function KeptBy(searchTerm: string, actionFilter: string): LogEntry -> bool
  {
    (l: LogEntry) => Kept(l, searchTerm, actionFilter)
  }

  /** The filter chain is one filter with the per-entry predicate `Kept`. */
  lemma FilterLogsIsFilter(logs: seq<LogEntry>, searchTerm: string, actionFilter: string)
    ensures FilterLogs(logs, searchTerm, actionFilter) == Filter(logs, KeptBy(searchTerm, actionFilter))
  {
    var term := Term(searchTerm);
    var k := KeptBy(searchTerm, actionFilter);
    var a := HasAction(actionFilter);
    var m := MatchesTerm(term);
    if actionFilter != "" && term != "" {
      FilterCompose(logs, a, m);
      FilterCongruent(logs, Both(a, m), k);
    } else if actionFilter != "" {
      FilterCongruent(logs, a, k);
    } else if term != "" {
      FilterCongruent(logs, m, k);
    } else {
      FilterAllKept(logs, k);
    }
  }

  /** The filtered entries are the loaded entries that pass both filters, in
      their original order. */
  lemma FilteredIsOrderedSubset(logs: seq<LogEntry>, searchTerm: string, actionFilter: string)
    ensures var r := FilterLogs(logs, searchTerm, actionFilter);
            && IsSubsequence(r, logs)
            && (forall i :: 0 <= i < |r| ==> Kept(r[i], searchTerm, actionFilter))
            && (forall i :: 0 <= i < |logs| && Kept(logs[i], searchTerm, actionFilter) ==> logs[i] in r)
  {
    var k := KeptBy(searchTerm, actionFilter);
    var r := Filter(logs, k);
    FilterLogsIsFilter(logs, searchTerm, actionFilter);
    FilterIsSubsequence(logs, k);
    forall i | 0 <= i < |r| ensures Kept(r[i], searchTerm, actionFilter) {
      assert k(r[i]);
    }
    forall i | 0 <= i < |logs| && Kept(logs[i], searchTerm, actionFilter) ensures logs[i] in r {
      assert k(logs[i]);
    }
  }

  /** With an action selected, every entry shown has exactly that action. */
  lemma ActionFilterExact(logs: seq<LogEntry>, searchTerm: string, actionFilter: string)
    requires actionFilter != ""
    ensures forall l :: l in FilterLogs(logs, searchTerm, actionFilter) ==> l.action == actionFilter
  {
    FilteredIsOrderedSubset(logs, searchTerm, actionFilter);
  }

  /** With a non-blank term and no action filter, an entry is shown exactly
      when the term occurs, ignoring case, in its detail or in its user. */
  lemma SearchSemantics(logs: seq<LogEntry>, searchTerm: string, l: LogEntry)
    requires Term(searchTerm) != ""
    ensures var t := Term(searchTerm);
            l in FilterLogs(logs, searchTerm, "") <==>
              l in logs && (Contains(ToLower(l.detail), t) || (l.user.Some? && Contains(ToLower(l.user.value), t)))
  {
    FilteredIsOrderedSubset(logs, searchTerm, "");
  }

  /** A blank search and no action filter show every entry. */
  lemma EmptyFiltersKeepAll(logs: seq<LogEntry>, searchTerm: string)
    requires AllWhitespace(searchTerm)
    ensures FilterLogs(logs, searchTerm, "") == logs
  {
    BlankIff(searchTerm);
  }

  /** Applying the same filters to the filtered entries changes nothing. */
  lemma FilterLogsIdempotent(logs: seq<LogEntry>, searchTerm: string, actionFilter: string)
    ensures var r := FilterLogs(logs, searchTerm, actionFilter);
            FilterLogs(r, searchTerm, actionFilter) == r
  {
    var r := FilterLogs(logs, searchTerm, actionFilter);
    FilterLogsIsFilter(logs, searchTerm, actionFilter);
    FilterLogsIsFilter(r, searchTerm, actionFilter);
    FilterIdempotent(logs, KeptBy(searchTerm, actionFilter));
  }

  // ---------------------------------------------------------------------------
  // Page state

  const LoadError := "Error cargando logs"

  class AdminLogsPage {
    var logs: seq<LogEntry>
    var isLoading: bool
    var error: Option<string>
    var searchTerm: string
    var actionFilter: string
    var stats: Stats

    /** The counters always describe the loaded entries. */
    predicate Valid()
      reads this
    {
      stats == ComputeStats(logs)
    }

    constructor ()
      ensures Valid()
      ensures logs == [] && isLoading && error == None && searchTerm == "" && actionFilter == ""
      ensures stats == Stats(0, 0, 0)
    {
      logs, isLoading, error := [], true, None;
      searchTerm, actionFilter := "", "";
      stats := Stats(0, 0, 0);
    }

    /** The entries the table shows. */
    function Filtered(): seq<LogEntry>
      reads this
    {
      FilterLogs(logs, searchTerm, actionFilter)
    }

    /** `fetchLogs`, run to completion with the given outcome. */
    method FetchLogs(outcome: Outcome<seq<LogEntry>>)
      requires Valid()
      modifies this`logs, this`stats, this`isLoading, this`error
      ensures Valid()
      ensures !isLoading
      ensures outcome.Ok? ==> logs == outcome.value && error == None
      ensures outcome.Fail? ==> logs == old(logs) && stats == old(stats) && error == Some(Or(outcome.message, LoadError))
    {
      isLoading := true;
      error := None;
      match outcome {
        case Ok(lista) =>
          logs := lista;
          stats := ComputeStats(lista);
        case Fail(m) =>
          error := Some(Or(m, LoadError));
      }
      isLoading := false;
    }

    method SetSearchTerm(value: string)
      modifies this`searchTerm
      ensures searchTerm == value
    {
      searchTerm := value;
    }

    method SetActionFilter(value: string)
      modifies this`actionFilter
      ensures actionFilter == value
    {
      actionFilter := value;
    }

    /** The "Limpiar" button: afterwards the table shows every loaded entry. */
    method ClearFilters()
      modifies this`searchTerm, this`actionFilter
      ensures searchTerm == "" && actionFilter == ""
      ensures Filtered() == logs
    {
      searchTerm, actionFilter := "", "";
      EmptyFiltersKeepAll(logs, searchTerm);
    }
  }
}
