/** The response defaulting of `api/analyze.js`: before the reply is sent, every report
    field the parsed (or salvaged) result lacks is filled in place with a fixed default. */
module Defaults {
  import opened Text
  import opened Json
  import Salvage

  /** The summary put in place of a missing one. */
  const FallbackSummary: string := "정책 문서 분석이 완료되었습니다."

  /** The five report fields as property reads: `None` is a property the object lacks. */
  datatype Fields = Fields(
    summary: Option<Doc>,
    allowedActions: Option<Doc>,
    deniedActions: Option<Doc>,
    securityIssues: Option<Doc>,
    riskLevel: Option<Doc>)

  /** `v.length > 0` for the values defaulting can leave in `securityIssues`: an array with
      elements or a non-empty string. */
  predicate HasItems(v: Option<Doc>) {
    match v
    case Some(Arr(items)) => items != []
    case Some(Str(s)) => s != ""
    case _ => false
  }

  /** Every field holds a truthy value. */
  predicate Complete(f: Fields) {
    && Truthy(f.summary) && Truthy(f.allowedActions) && Truthy(f.deniedActions)
    && Truthy(f.securityIssues) && Truthy(f.riskLevel)
  }

  /** The fields after defaulting: falsy ones are replaced, the issue list before the risk
      level, so a missing risk level is judged by the issue list as it stands then. */
  function WithDefaults(f: Fields): (g: Fields)
    ensures Complete(g)
    ensures Truthy(f.summary) ==> g.summary == f.summary
    ensures Truthy(f.allowedActions) ==> g.allowedActions == f.allowedActions
    ensures Truthy(f.deniedActions) ==> g.deniedActions == f.deniedActions
    ensures Truthy(f.securityIssues) ==> g.securityIssues == f.securityIssues
    ensures Truthy(f.riskLevel) ==> g.riskLevel == f.riskLevel
  {
    var summary := if Truthy(f.summary) then f.summary else Some(Str(FallbackSummary));
    var allowed := if Truthy(f.allowedActions) then f.allowedActions else Some(Arr([]));
    var denied := if Truthy(f.deniedActions) then f.deniedActions else Some(Arr([]));
    var issues := if Truthy(f.securityIssues) then f.securityIssues else Some(Arr([]));
    var risk :=
      if Truthy(f.riskLevel) then f.riskLevel
      else if HasItems(issues) then Some(Str("Medium"))
      else Some(Str("Low"));
    Fields(summary, allowed, denied, issues, risk)
  }

  /** The result object the handler sends back, with the fields defaulting touches. */
  class ParsedResult {
    var summary: Option<Doc>
    var allowedActions: Option<Doc>
    var deniedActions: Option<Doc>
    var securityIssues: Option<Doc>
    var riskLevel: Option<Doc>

    constructor (f: Fields)
      ensures Current() == f
    {
      summary := f.summary;
      allowedActions := f.allowedActions;
      deniedActions := f.deniedActions;
      securityIssues := f.securityIssues;
      riskLevel := f.riskLevel;
    }

    function Current(): Fields
      reads this
    {
      Fields(summary, allowedActions, deniedActions, securityIssues, riskLevel)
    }

    /** The defaulting block: each falsy field is overwritten in turn. */
    method ApplyDefaults()
      modifies this
      ensures Current() == WithDefaults(old(Current()))
      ensures Complete(Current())
    {
      if !Truthy(summary) {
        summary := Some(Str(FallbackSummary));
      }
      if !Truthy(allowedActions) {
        allowedActions := Some(Arr([]));
      }
      if !Truthy(deniedActions) {
        deniedActions := Some(Arr([]));
      }
      if !Truthy(securityIssues) {
        securityIssues := Some(Arr([]));
      }
      if !Truthy(riskLevel) {
        riskLevel := if HasItems(securityIssues) then Some(Str("Medium")) else Some(Str("Low"));
      }
    }
  }

  /** Defaulting twice is defaulting once. */
  lemma DefaultsIdempotent(f: Fields)
    ensures WithDefaults(WithDefaults(f)) == WithDefaults(f)
  {
    var g := WithDefaults(f);
    assert Complete(g);
  }

  /** A missing risk level becomes Medium exactly when the issue list (as defaulted) has
      elements, and Low otherwise; a missing issue list always yields Low. */
  lemma DefaultRiskLevel(f: Fields)
    requires !Truthy(f.riskLevel)
    ensures WithDefaults(f).riskLevel == Some(Str("Medium")) <==> HasItems(f.securityIssues)
    ensures WithDefaults(f).riskLevel == Some(Str("Low")) <==> !HasItems(f.securityIssues)
    ensures !Truthy(f.securityIssues) ==> WithDefaults(f).riskLevel == Some(Str("Low"))
  {
    if !Truthy(f.securityIssues) {
      assert !HasItems(f.securityIssues);
    }
  }

  /** A missing summary, action list or issue list gets the fixed fall-back. */
  lemma DefaultValues(f: Fields)
    ensures !Truthy(f.summary) ==> WithDefaults(f).summary == Some(Str(FallbackSummary))
    ensures !Truthy(f.allowedActions) ==> WithDefaults(f).allowedActions == Some(Arr([]))
    ensures !Truthy(f.deniedActions) ==> WithDefaults(f).deniedActions == Some(Arr([]))
    ensures !Truthy(f.securityIssues) ==> WithDefaults(f).securityIssues == Some(Arr([]))
  {
  }

  function StrArr(xs: seq<string>): (d: Doc)
    ensures d.Arr? && |d.items| == |xs|
  {
    Arr(seq(|xs|, k requires 0 <= k < |xs| => Str(xs[k])))
  }

  function IssueDoc(x: Salvage.SecurityIssue): Doc {
    Obj([Member("severity", Str(x.severity)), Member("issue", Str(x.issue)),
         Member("recommendation", Str(x.recommendation))])
  }

  /** The record the handler builds from a reply that holds no JSON, from the five
      salvaged values. */
  function Record(summary: string, allowed: seq<string>, denied: seq<string>,
                  issues: seq<Salvage.SecurityIssue>, risk: string): (f: Fields)
    ensures f.securityIssues.Some? && f.securityIssues.value.Arr?
    ensures |f.securityIssues.value.items| == |issues|
  {
    Fields(
      Some(Str(summary)),
      Some(StrArr(allowed)),
      Some(StrArr(denied)),
      Some(Arr(seq(|issues|, k requires 0 <= k < |issues| => IssueDoc(issues[k])))),
      Some(Str(risk)))
  }

  function Salvaged(text: string): Fields {
    Record(Salvage.SummaryOf(text), Salvage.AllowedActions(text), Salvage.DeniedActions(text),
           Salvage.SecurityIssues(text), Salvage.ReplyRiskLevel(text))
  }

  /** Defaulting never alters a salvaged record: its summary is never empty, its lists are
      arrays (truthy even when empty) and its risk level is always set. */
  lemma SalvagedNeedsNoDefaults(text: string)
    ensures Complete(Salvaged(text))
    ensures WithDefaults(Salvaged(text)) == Salvaged(text)
  {
    Salvage.SummaryNonEmpty(text);
    RecordNeedsNoDefaults(Salvage.SummaryOf(text), Salvage.AllowedActions(text),
      Salvage.DeniedActions(text), Salvage.SecurityIssues(text), Salvage.ReplyRiskLevel(text));
  }

  lemma RecordNeedsNoDefaults(summary: string, allowed: seq<string>, denied: seq<string>,
                              issues: seq<Salvage.SecurityIssue>, risk: string)
    requires summary != "" && risk != ""
    ensures Complete(Record(summary, allowed, denied, issues, risk))
    ensures WithDefaults(Record(summary, allowed, denied, issues, risk)) == Record(summary, allowed, denied, issues, risk)
  {
    CompleteNeedsNoDefaults(Record(summary, allowed, denied, issues, risk));
  }

  /** Defaulting leaves a record whose fields are all truthy exactly as it is. */
  lemma CompleteNeedsNoDefaults(f: Fields)
    requires Complete(f)
    ensures WithDefaults(f) == f
  {
  }
}
