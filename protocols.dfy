// The protocol step catalogue: the steps of the MMSE protocol in one language, read from the
// prompt table.

module Protocols {
  import opened Wrappers
  import opened Text
  import opened Decimal
  import opened Sorting
  import opened DbRepo

  const MmseProtocol := "mmse_v1"
  const UnknownProtocolDetail := "Unknown protocol. Use protocol=mmse_v1"

  /** The language as the catalogue looks it up: empty means Italian, the value is lower-cased,
      and every Italian variant ("it-IT", "IT_ch", ...) becomes "it". */
  function NormalizeLang(lang: string): (r: string)
    ensures HasNoUpper(r)
    ensures r == "it" <==> lang == "" || StartsWith(Lower(lang), "it")
    ensures r != "it" ==> r == Lower(lang)
  {
    var l := Lower(if lang == "" then "it" else lang);
    if StartsWith(l, "it") then "it" else l
  }

  /** Normalising twice is normalising once. */
  lemma NormalizeLangIdempotent(lang: string)
    ensures NormalizeLang(NormalizeLang(lang)) == NormalizeLang(lang)
  {
    var r := NormalizeLang(lang);
    if r == "it" {
      assert Lower(r) == r;
      assert StartsWith(Lower(r), "it");
    } else {
      assert r == Lower(lang) && r != "";
      assert Lower(r) == r;
    }
  }

  /** One step of the catalogue. */
  datatype Step = Step(stepId: string, question: string)

  /** The id of the step with number n: "mmse_step" and n padded to two digits. */
  function StepId(n: int): (id: string)
    ensures StartsWith(id, "mmse_step") && |id| >= 11
  {
    "mmse_step" + Pad2(n)
  }

  /** Distinct step numbers give distinct step ids. */
  lemma StepIdInjective(a: int, b: int)
    requires StepId(a) == StepId(b)
    ensures a == b
  {
    assert Pad2(a) == StepId(a)[9..];
    assert Pad2(b) == StepId(b)[9..];
    Pad2Injective(a, b);
  }

  function StepOf(row: PromptRow): Step {
    Step(StepId(row.step), row.text)
  }

  function StepsOf(rows: seq<PromptRow>): (steps: seq<Step>)
    ensures |steps| == |rows|
    ensures forall i :: 0 <= i < |rows| ==> steps[i] == StepOf(rows[i])
  {
    seq(|rows|, i requires 0 <= i < |rows| => StepOf(rows[i]))
  }

  /** The rows the catalogue is built from. */
  function CatalogueRows(prompts: seq<PromptRow>, lang: string): seq<PromptRow> {
    ListMmsePrompts(prompts, MmseProtocol, NormalizeLang(lang))
  }

  /** get_protocol_steps: a client error for an unknown protocol (before any lookup), a server
      error when the language has no prompt rows, otherwise one step per row in step order. */
  function GetProtocolSteps(protocol: string, lang: string, prompts: seq<PromptRow>): (r: Result<seq<Step>>)
    ensures protocol != MmseProtocol ==> r == Err(HttpError(400, UnknownProtocolDetail))
    ensures protocol == MmseProtocol && r.Err? ==>
      r.error == HttpError(500, NoPromptsDetail(MmseProtocol, NormalizeLang(lang)))
    ensures r.Ok? <==>
      protocol == MmseProtocol && exists p :: p in prompts && p.protocol == MmseProtocol && p.lang == NormalizeLang(lang)
    ensures r.Ok? ==> |r.value| == |PromptsFor(prompts, MmseProtocol, NormalizeLang(lang))| > 0
    ensures r.Ok? ==> forall i :: 0 <= i < |r.value| ==>
      exists p :: p in prompts && p.protocol == MmseProtocol && p.lang == NormalizeLang(lang) && r.value[i] == StepOf(p)
  {
    var l := NormalizeLang(lang);
    if protocol != MmseProtocol then Err(HttpError(400, UnknownProtocolDetail))
    else
      match EnsureMmsePromptsExist(prompts, MmseProtocol, l)
      case Fail(e) => Err(e)
      case Pass =>
        CatalogueShape(prompts, l);
        Ok(StepsOf(ListMmsePrompts(prompts, MmseProtocol, l)))
  }

  lemma CatalogueShape(prompts: seq<PromptRow>, lang: string)
    ensures var steps := StepsOf(ListMmsePrompts(prompts, MmseProtocol, lang));
      && |steps| == |PromptsFor(prompts, MmseProtocol, lang)|
      && forall i :: 0 <= i < |steps| ==>
           exists p :: p in prompts && p.protocol == MmseProtocol && p.lang == lang && steps[i] == StepOf(p)
  {
    var rows := ListMmsePrompts(prompts, MmseProtocol, lang);
    assert |rows| == |multiset(rows)| == |multiset(PromptsFor(prompts, MmseProtocol, lang))|;
    assert forall i :: 0 <= i < |rows| ==> rows[i] in rows;
  }

  /** Step i of the catalogue is built from the i-th row of the step-ordered list. */
  lemma StepsFollowRows(protocol: string, lang: string, prompts: seq<PromptRow>, i: int)
    requires GetProtocolSteps(protocol, lang, prompts).Ok?
    requires 0 <= i < |GetProtocolSteps(protocol, lang, prompts).value|
    ensures var rows := CatalogueRows(prompts, lang);
      i < |rows| && GetProtocolSteps(protocol, lang, prompts).value[i] == StepOf(rows[i])
  {
  }

  /** With (protocol, lang, step) unique, the step ids of the catalogue are pairwise distinct
      and the underlying step numbers strictly ascend. */
  lemma StepIdsDistinct(protocol: string, lang: string, prompts: seq<PromptRow>)
    requires UniquePromptKeys(prompts)
    requires GetProtocolSteps(protocol, lang, prompts).Ok?
    ensures var steps := GetProtocolSteps(protocol, lang, prompts).value;
      forall i, j :: 0 <= i < j < |steps| ==> steps[i].stepId != steps[j].stepId
  {
    var steps := GetProtocolSteps(protocol, lang, prompts).value;
    var rows := CatalogueRows(prompts, lang);
    assert StrictlySortedBy(rows, PromptStep);
    forall i, j | 0 <= i < j < |steps| ensures steps[i].stepId != steps[j].stepId {
      assert PromptStep(rows[i]) < PromptStep(rows[j]);
      if steps[i].stepId == steps[j].stepId {
        StepIdInjective(rows[i].step, rows[j].step);
      }
    }
  }

  /** Every spelling of a language that normalises alike yields the same catalogue. */
  lemma StepsIgnoreLangSpelling(protocol: string, lang: string, prompts: seq<PromptRow>)
    ensures GetProtocolSteps(protocol, lang, prompts) == GetProtocolSteps(protocol, NormalizeLang(lang), prompts)
  {
    NormalizeLangIdempotent(lang);
  }

  /** The prompt rows of a language are numbered 0, 1, ..., n-1 (as the seeding script lays them out). */
  predicate ContiguousSteps(prompts: seq<PromptRow>, lang: string) {
    forall p :: p in prompts && p.protocol == MmseProtocol && p.lang == lang ==>
      0 <= p.step < |PromptsFor(prompts, MmseProtocol, lang)|
  }

  /** In a strictly ascending run, keys j - i positions apart differ by at least j - i. */
  lemma {:induction false} StrictGap(rows: seq<PromptRow>, i: nat, j: nat)
    requires StrictlySortedBy(rows, PromptStep) && i <= j < |rows|
    ensures rows[j].step - rows[i].step >= j - i
    decreases j - i
  {
    if i < j {
      StrictGap(rows, i + 1, j);
      assert PromptStep(rows[i]) < PromptStep(rows[i + 1]);
    }
  }

  /** n strictly ascending step numbers, all in [0, n), are exactly 0, 1, ..., n-1. */
  lemma StepsAreIndices(rows: seq<PromptRow>)
    requires StrictlySortedBy(rows, PromptStep)
    requires forall i :: 0 <= i < |rows| ==> 0 <= rows[i].step < |rows|
    ensures forall i :: 0 <= i < |rows| ==> rows[i].step == i
  {
    forall i | 0 <= i < |rows| ensures rows[i].step == i {
      StrictGap(rows, 0, i);
      StrictGap(rows, i, |rows| - 1);
    }
  }

  /** Two rows of a table with unique keys that agree on the key are the same row. */
  lemma SameKeySameRow(prompts: seq<PromptRow>, p: PromptRow, q: PromptRow)
    requires UniquePromptKeys(prompts) && p in prompts && q in prompts && SameKey(p, q)
    ensures p == q
  {
    var i :| 0 <= i < |prompts| && prompts[i] == p;
    var j :| 0 <= j < |prompts| && prompts[j] == q;
    assert !(i < j) && !(j < i);
  }

  /** In a table with unique keys, every row is what the lookup by its own key returns. */
  lemma LookupFindsRow(prompts: seq<PromptRow>, row: PromptRow)
    requires UniquePromptKeys(prompts) && row in prompts
    ensures GetMmsePrompt(prompts, row.protocol, row.lang, row.step) == Ok(row)
  {
    var r := GetMmsePrompt(prompts, row.protocol, row.lang, row.step);
    assert r.Ok?;
    SameKeySameRow(prompts, r.value, row);
  }

  /** The step-ordered rows of a contiguously numbered language carry their own positions. */
  lemma CatalogueRowsAreIndices(prompts: seq<PromptRow>, lang: string)
    requires UniquePromptKeys(prompts) && ContiguousSteps(prompts, lang)
    ensures var rows := ListMmsePrompts(prompts, MmseProtocol, lang);
      forall i :: 0 <= i < |rows| ==> rows[i] in prompts && rows[i].step == i
  {
    var rows := ListMmsePrompts(prompts, MmseProtocol, lang);
    assert |rows| == |multiset(rows)| == |multiset(PromptsFor(prompts, MmseProtocol, lang))|;
    assert forall i :: 0 <= i < |rows| ==> rows[i] in rows;
    StepsAreIndices(rows);
  }

  /** When the rows of a language are numbered 0..n-1 and the language is already normalised,
      the prompt fetched by step number k is the one behind the k-th step of the catalogue. */
  lemma PromptAtStepIsStep(prompts: seq<PromptRow>, lang: string, k: int)
    requires UniquePromptKeys(prompts) && lang == NormalizeLang(lang) && ContiguousSteps(prompts, lang)
    requires GetProtocolSteps(MmseProtocol, lang, prompts).Ok?
    requires 0 <= k < |GetProtocolSteps(MmseProtocol, lang, prompts).value|
    ensures GetMmsePrompt(prompts, MmseProtocol, lang, k).Ok?
    ensures StepOf(GetMmsePrompt(prompts, MmseProtocol, lang, k).value) == GetProtocolSteps(MmseProtocol, lang, prompts).value[k]
  {
    var rows := ListMmsePrompts(prompts, MmseProtocol, lang);
    StepsFollowRows(MmseProtocol, lang, prompts, k);
    CatalogueRowsAreIndices(prompts, lang);
    var row := rows[k];
    assert row.protocol == MmseProtocol && row.lang == lang by {
      assert row in rows;
    }
    LookupFindsRow(prompts, row);
  }
}
