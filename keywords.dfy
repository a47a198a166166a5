/**
 * The keyword option table of the web client and its lookups: two searches
 * in which the last match in table order wins, and a map from each option's
 * value to the option, filled in table order.
 */
module KeywordConstants {
  import opened Wrappers

  /** One keyword category option (`type` and `label` are reserved words here, hence `keywordType` and `labelText`). */
  datatype Keyword = Keyword(value: string, labelText: string, uri: string, keywordType: string, color: string, badge: string)

  /** `keywordOptions`. */
  const KeywordOptions: seq<Keyword> := [
    Keyword("PSC", "PSC", "psc", "psc", "pink", "badge-warning"),
    Keyword("PSC Batch", "PSC Batch", "pscbatch", "pscbatch", "blue-grey", "badge-secondary"),
    Keyword("PSC Diff Batch", "PSC Diff Batch", "pscdiffbatch", "pscdiffbatch", "orange", "badge-danger"),
    Keyword("Gene", "Gene", "genes", "gene", "light-green", "badge-success"),
    Keyword("qPCR Probe", "qPCR Probe", "qpcr_probe", "qpcr_probe", "navy", "badge-tertiary"),
    Keyword("Primary Antibody", "Primary Antibody", "p_antibody", "p_antibody", "purple", "badge-info")
  ]

  /** The field a lookup compares. */
  datatype Field = ByValue | ByType

  function KeyOf(kw: Keyword, field: Field): string
  {
    match field
    case ByValue => kw.value
    case ByType => kw.keywordType
  }

  /** The last option, in table order, whose `field` is `x`; `None` is `null`. */
  function LastMatch(options: seq<Keyword>, field: Field, x: string): Option<Keyword>
  {
    if options == [] then None
    else
      var last := options[|options| - 1];
      if KeyOf(last, field) == x then Some(last) else LastMatch(options[..|options| - 1], field, x)
  }

  // ----- What the last match is -------------------------------------------------

  /** There is no match exactly when no option carries `x`. */
  lemma {:induction false} LastMatchNone(options: seq<Keyword>, field: Field, x: string)
    ensures LastMatch(options, field, x).None? <==> forall i :: 0 <= i < |options| ==> KeyOf(options[i], field) != x
  {
    if options != [] {
      var init := options[..|options| - 1];
      LastMatchNone(init, field, x);
      assert forall i :: 0 <= i < |init| ==> init[i] == options[i];
    }
  }

  /** A match is an option of the table carrying `x`. */
  lemma {:induction false} LastMatchFound(options: seq<Keyword>, field: Field, x: string)
    ensures var k := LastMatch(options, field, x);
            k.Some? ==> k.value in options && KeyOf(k.value, field) == x
  {
    if options != [] {
      LastMatchFound(options[..|options| - 1], field, x);
    }
  }

  /** The option at `i` is the match exactly when no later option carries `x`. */
  lemma {:induction false} LastMatchIsLast(options: seq<Keyword>, field: Field, x: string, i: nat)
    requires i < |options| && KeyOf(options[i], field) == x
    requires forall j :: i < j < |options| ==> KeyOf(options[j], field) != x
    ensures LastMatch(options, field, x) == Some(options[i])
  {
    var n := |options|;
    if i < n - 1 {
      var init := options[..n - 1];
      assert KeyOf(options[n - 1], field) != x;
      assert forall j :: i < j < |init| ==> init[j] == options[j];
      LastMatchIsLast(init, field, x, i);
    }
  }

  /** Prefixes grow one option at a time: the new last option wins if it matches, else the earlier match stands. */
  lemma LastMatchExtend(options: seq<Keyword>, i: nat, field: Field, x: string)
    requires i < |options|
    ensures LastMatch(options[..i + 1], field, x)
            == if KeyOf(options[i], field) == x then Some(options[i]) else LastMatch(options[..i], field, x)
  {
    assert options[..i + 1][..i] == options[..i];
  }

  // ----- The lookups --------------------------------------------------------------

  /** `findKeywordByValue`: the last option whose value is `value`, or `null`. */
  method FindKeywordByValue(value: string) returns (keyword: Option<Keyword>)
    ensures keyword == LastMatch(KeywordOptions, ByValue, value)
    ensures keyword.Some? ==> keyword.value in KeywordOptions && keyword.value.value == value
  {
    keyword := None;
    for i := 0 to |KeywordOptions|
      invariant keyword == LastMatch(KeywordOptions[..i], ByValue, value)
    {
      LastMatchExtend(KeywordOptions, i, ByValue, value);
      if KeywordOptions[i].value == value {
        keyword := Some(KeywordOptions[i]);
      }
    }
    assert KeywordOptions[..|KeywordOptions|] == KeywordOptions;
    LastMatchFound(KeywordOptions, ByValue, value);
  }

  /** `findKeywordByType`: the last option whose type is `keywordType`, or `null`. */
  method FindKeywordByType(keywordType: string) returns (keyword: Option<Keyword>)
    ensures keyword == LastMatch(KeywordOptions, ByType, keywordType)
    ensures keyword.Some? ==> keyword.value in KeywordOptions && keyword.value.keywordType == keywordType
  {
    keyword := None;
    for i := 0 to |KeywordOptions|
      invariant keyword == LastMatch(KeywordOptions[..i], ByType, keywordType)
    {
      LastMatchExtend(KeywordOptions, i, ByType, keywordType);
      if KeywordOptions[i].keywordType == keywordType {
        keyword := Some(KeywordOptions[i]);
      }
    }
    assert KeywordOptions[..|KeywordOptions|] == KeywordOptions;
    LastMatchFound(KeywordOptions, ByType, keywordType);
  }

  /**
   * `keywordOptionMap` (applied to `KeywordOptions`): every option's value is a
   * key, nothing else is, and each key maps to the option `findKeywordByValue`
   * would return for it — the later one where values repeat.
   */
  method KeywordOptionMap(options: seq<Keyword>) returns (m: map<string, Keyword>)
    ensures m.Keys == set kw | kw in options :: kw.value
    ensures forall v :: v in m <==> LastMatch(options, ByValue, v).Some?
    ensures forall v :: v in m ==> LastMatch(options, ByValue, v) == Some(m[v])
  {
    m := map[];
    for i := 0 to |options|
      invariant m.Keys == set kw | kw in options[..i] :: kw.value
      invariant forall v :: v in m <==> LastMatch(options[..i], ByValue, v).Some?
      invariant forall v :: v in m ==> LastMatch(options[..i], ByValue, v) == Some(m[v])
    {
      forall v {
        LastMatchExtend(options, i, ByValue, v);
      }
      assert options[..i + 1] == options[..i] + [options[i]];
      m := m[options[i].value := options[i]];
    }
    assert options[..|options|] == options;
  }

  // ----- The constant table ---------------------------------------------------------

  /** The table has six options with pairwise distinct values and pairwise distinct types. */
  lemma OptionsAreDistinct()
    ensures |KeywordOptions| == 6
    ensures forall i, j :: 0 <= i < j < |KeywordOptions| ==> KeywordOptions[i].value != KeywordOptions[j].value
    ensures forall i, j :: 0 <= i < j < |KeywordOptions| ==> KeywordOptions[i].keywordType != KeywordOptions[j].keywordType
  {
  }

  /** Hence both lookups are unambiguous: each option is found by its own value and by its own type. */
  lemma LookupsAreUnambiguous(i: nat)
    requires i < |KeywordOptions|
    ensures LastMatch(KeywordOptions, ByValue, KeywordOptions[i].value) == Some(KeywordOptions[i])
    ensures LastMatch(KeywordOptions, ByType, KeywordOptions[i].keywordType) == Some(KeywordOptions[i])
  {
    OptionsAreDistinct();
    LastMatchIsLast(KeywordOptions, ByValue, KeywordOptions[i].value, i);
    LastMatchIsLast(KeywordOptions, ByType, KeywordOptions[i].keywordType, i);
  }
}
