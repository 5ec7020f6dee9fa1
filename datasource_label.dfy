/** The label data source's read: it checks that the provider configuration
    is present and complete, reads the optional per-resource inputs, and
    fills in the identifier, the tags and the tags without Name. */
module DataSourceLabel {
  import opened GoStrings
  import opened Label

  datatype Option<T> = None | Some(value: T)

  /** A string attribute of the request: null, or a known value. */
  function ValueOrEmpty(v: Option<string>): (s: string)
    ensures v.None? ==> s == ""
    ensures v.Some? ==> s == v.value
  {
    match v
    case None => ""
    case Some(value) => value
  }

  /** An error reported to the caller: a summary and a detail message. */
  datatype Diagnostic = Diagnostic(summary: string, detail: string)

  const ProviderNotConfigured := Diagnostic(
    "Provider Not Configured",
    "The label provider must be configured with tenant, environment, stage, and workspace.")

  /** The error for an incomplete configuration, naming the missing fields. */
  function IncompleteConfiguration(missing: seq<string>): (d: Diagnostic)
    ensures d.summary == "Incomplete Provider Configuration"
    ensures var prefix := "Missing required provider values: ";
      && prefix <= d.detail
      && (missing != [] ==> prefix + missing[0] <= d.detail)
      && (|missing| == 1 ==> d.detail == prefix + missing[0])
      && (missing != [] ==> |d.detail| == |prefix| + TotalLength(missing) + 2 * (|missing| - 1))
  {
    Diagnostic("Incomplete Provider Configuration",
               "Missing required provider values: " + Join(missing, ", "))
  }

  /** Each further missing name adds ", " and that name to the detail. */
  lemma IncompleteConfigurationAppends(missing: seq<string>)
    requires |missing| >= 2
    ensures var n := |missing|;
      IncompleteConfiguration(missing).detail
        == IncompleteConfiguration(missing[..n - 1]).detail + ", " + missing[n - 1]
  {
    var n := |missing|;
    assert missing == missing[..n - 1] + [missing[n - 1]];
    JoinConcat(missing[..n - 1], [missing[n - 1]], ", ");
  }

  /** The data source's attributes: the four inputs, and the three computed
      values, which are None until the read fills them in. */
  datatype LabelDataSourceModel = LabelDataSourceModel(
    resourceType: string,
    qualifier: Option<string>,
    instanceKey: Option<string>,
    delimiter: Option<string>,
    id: Option<string>,
    tags: Option<map<string, string>>,
    tagsWithoutName: Option<map<string, string>>)

  /** What a read reports: its errors, and the state it records when there
      are none. */
  datatype ReadResponse = ReadResponse(diagnostics: seq<Diagnostic>, state: Option<LabelDataSourceModel>)

  /** The configuration fields that must not be empty. */
  datatype Field = Tenant | Environment | Stage | Workspace

  /** The name a field is reported under. */
  function FieldName(f: Field): string
  {
    match f
    case Tenant => "tenant"
    case Environment => "environment"
    case Stage => "stage"
    case Workspace => "workspace"
  }

  /** The value of a mandatory field. */
  function FieldValue(cfg: LabelConfig, f: Field): string
  {
    match f
    case Tenant => cfg.tenant
    case Environment => cfg.environment
    case Stage => cfg.stage
    case Workspace => cfg.workspace
  }

  /** The mandatory fields, in the order they are checked and reported. */
  const MandatoryFields: seq<Field> := [Tenant, Environment, Stage, Workspace]

  /** `xs` is `ys` with some elements left out, the others in their order. */
  predicate IsSubsequence(xs: seq<Field>, ys: seq<Field>)
    decreases |ys|
  {
    if ys == [] then xs == []
    else (xs != [] && xs[0] == ys[0] && IsSubsequence(xs[1..], ys[1..])) || IsSubsequence(xs, ys[1..])
  }

  /** The fields among `fields` that are empty, in the order of `fields`. */
  function EmptyFields(cfg: LabelConfig, fields: seq<Field>): seq<Field>
  {
    if fields == [] then [] else IfEmpty(cfg, fields[0]) + EmptyFields(cfg, fields[1..])
  }

  /** The field alone when it is empty, nothing otherwise. */
  function IfEmpty(cfg: LabelConfig, f: Field): seq<Field>
  {
    if FieldValue(cfg, f) == "" then [f] else []
  }

  /** A field is listed exactly when it is among `fields` and empty. */
  lemma {:induction false} EmptyFieldsMembers(cfg: LabelConfig, fields: seq<Field>, f: Field)
    ensures f in EmptyFields(cfg, fields) <==> f in fields && FieldValue(cfg, f) == ""
  {
    if fields != [] {
      EmptyFieldsMembers(cfg, fields[1..], f);
      assert fields == [fields[0]] + fields[1..];
    }
  }

  /** The empty fields keep the order of `fields`. */
  lemma {:induction false} EmptyFieldsInOrder(cfg: LabelConfig, fields: seq<Field>)
    ensures IsSubsequence(EmptyFields(cfg, fields), fields)
  {
    if fields != [] {
      var rest := EmptyFields(cfg, fields[1..]);
      EmptyFieldsInOrder(cfg, fields[1..]);
      if FieldValue(cfg, fields[0]) == "" {
        assert (IfEmpty(cfg, fields[0]) + rest)[1..] == rest;
      } else {
        assert IfEmpty(cfg, fields[0]) + rest == rest;
      }
    }
  }

  /** The names of `fields`, in order. */
  function FieldNames(fields: seq<Field>): (names: seq<string>)
    ensures |names| == |fields|
  {
    if fields == [] then [] else [FieldName(fields[0])] + FieldNames(fields[1..])
  }

  /** A field's name is listed exactly when the field is: no two fields
      share a name. */
  lemma {:induction false} FieldNamesMembers(fields: seq<Field>, f: Field)
    ensures FieldName(f) in FieldNames(fields) <==> f in fields
  {
    if fields != [] {
      FieldNamesMembers(fields[1..], f);
      assert fields == [fields[0]] + fields[1..];
      assert FieldName(f) == FieldName(fields[0]) <==> f == fields[0];
    }
  }

  /** Only the four mandatory fields' names are ever listed. */
  lemma {:induction false} FieldNamesAreMandatory(fields: seq<Field>, n: string)
    requires n in FieldNames(fields)
    ensures n == "tenant" || n == "environment" || n == "stage" || n == "workspace"
  {
    if n != FieldName(fields[0]) {
      FieldNamesAreMandatory(fields[1..], n);
    }
  }

  /** Names of a concatenation. */
  lemma {:induction false} FieldNamesConcat(a: seq<Field>, b: seq<Field>)
    ensures FieldNames(a + b) == FieldNames(a) + FieldNames(b)
  {
    if a == [] {
      assert a + b == b;
    } else {
      assert (a + b)[0] == a[0];
      assert (a + b)[1..] == a[1..] + b;
      calc {
        FieldNames(a + b);
        [FieldName(a[0])] + FieldNames(a[1..] + b);
        { FieldNamesConcat(a[1..], b); }
        [FieldName(a[0])] + (FieldNames(a[1..]) + FieldNames(b));
        ([FieldName(a[0])] + FieldNames(a[1..])) + FieldNames(b);
      }
    }
  }

  /** No element occurs twice. */
  predicate Distinct<T(==)>(xs: seq<T>)
  {
    forall i, j :: 0 <= i < j < |xs| ==> xs[i] != xs[j]
  }

  /** A list with a head is duplicate-free exactly when its tail is and the
      head does not occur in the tail. */
  lemma DistinctCons<T>(x: T, xs: seq<T>)
    ensures Distinct([x] + xs) <==> x !in xs && Distinct(xs)
  {
    var ys := [x] + xs;
    assert forall i :: 0 <= i < |xs| ==> ys[i + 1] == xs[i];
    if x in xs {
      var k :| 0 <= k < |xs| && xs[k] == x;
      assert ys[0] == ys[k + 1];
    }
    if !Distinct(xs) {
      var i, j :| 0 <= i < j < |xs| && xs[i] == xs[j];
      assert ys[i + 1] == ys[j + 1];
    }
  }

  /** Checking a duplicate-free list of fields lists each empty one once. */
  lemma {:induction false} EmptyFieldsDistinct(cfg: LabelConfig, fields: seq<Field>)
    requires Distinct(fields)
    ensures Distinct(EmptyFields(cfg, fields))
  {
    if fields != [] {
      var rest := EmptyFields(cfg, fields[1..]);
      assert fields == [fields[0]] + fields[1..];
      DistinctCons(fields[0], fields[1..]);
      EmptyFieldsDistinct(cfg, fields[1..]);
      if FieldValue(cfg, fields[0]) == "" {
        EmptyFieldsMembers(cfg, fields[1..], fields[0]);
        DistinctCons(fields[0], rest);
      } else {
        assert IfEmpty(cfg, fields[0]) + rest == rest;
      }
    }
  }

  /** Distinct fields have distinct names. */
  lemma {:induction false} FieldNamesDistinct(fields: seq<Field>)
    requires Distinct(fields)
    ensures Distinct(FieldNames(fields))
  {
    if fields != [] {
      assert fields == [fields[0]] + fields[1..];
      DistinctCons(fields[0], fields[1..]);
      FieldNamesDistinct(fields[1..]);
      FieldNamesMembers(fields[1..], fields[0]);
      DistinctCons(FieldName(fields[0]), FieldNames(fields[1..]));
    }
  }

  /** The names of the mandatory fields the configuration leaves empty. */
  function MissingFieldNames(cfg: LabelConfig): seq<string>
  {
    FieldNames(EmptyFields(cfg, MandatoryFields))
  }

  /** The empty fields of a one-field-longer list. */
  lemma EmptyFieldsCons(cfg: LabelConfig, f: Field, fields: seq<Field>)
    ensures EmptyFields(cfg, [f] + fields) == IfEmpty(cfg, f) + EmptyFields(cfg, fields)
  {
    assert ([f] + fields)[1..] == fields;
  }

  /** The empty fields of a four-field list, field by field. */
  lemma EmptyFieldsOfFour(cfg: LabelConfig, a: Field, b: Field, c: Field, d: Field)
    ensures EmptyFields(cfg, [a, b, c, d])
      == IfEmpty(cfg, a) + (IfEmpty(cfg, b) + (IfEmpty(cfg, c) + IfEmpty(cfg, d)))
  {
    EmptyFieldsCons(cfg, d, []);
    assert [d] + [] == [d];
    assert EmptyFields(cfg, []) == [];
    EmptyFieldsCons(cfg, c, [d]);
    assert [c] + [d] == [c, d];
    EmptyFieldsCons(cfg, b, [c, d]);
    assert [b] + [c, d] == [b, c, d];
    EmptyFieldsCons(cfg, a, [b, c, d]);
    assert [a] + [b, c, d] == [a, b, c, d];
  }

  /** Exactly the empty mandatory fields are listed, in the fixed order,
      each once; the namespace and the delimiter never are. */
  lemma MissingFieldNamesExact(cfg: LabelConfig)
    ensures var names := MissingFieldNames(cfg);
      && ("tenant" in names <==> cfg.tenant == "")
      && ("environment" in names <==> cfg.environment == "")
      && ("stage" in names <==> cfg.stage == "")
      && ("workspace" in names <==> cfg.workspace == "")
      && "namespace" !in names && "delimiter" !in names
      && |names| <= 4
    ensures Distinct(MissingFieldNames(cfg))
    ensures IsSubsequence(EmptyFields(cfg, MandatoryFields), MandatoryFields)
  {
    var missing := EmptyFields(cfg, MandatoryFields);
    var names := MissingFieldNames(cfg);
    EmptyFieldsMembers(cfg, MandatoryFields, Tenant);
    EmptyFieldsMembers(cfg, MandatoryFields, Environment);
    EmptyFieldsMembers(cfg, MandatoryFields, Stage);
    EmptyFieldsMembers(cfg, MandatoryFields, Workspace);
    FieldNamesMembers(missing, Tenant);
    FieldNamesMembers(missing, Environment);
    FieldNamesMembers(missing, Stage);
    FieldNamesMembers(missing, Workspace);
    EmptyFieldsInOrder(cfg, MandatoryFields);
    SubsequenceLength(missing, MandatoryFields);
    EmptyFieldsDistinct(cfg, MandatoryFields);
    FieldNamesDistinct(missing);
    if "namespace" in names {
      FieldNamesAreMandatory(missing, "namespace");
    }
    if "delimiter" in names {
      FieldNamesAreMandatory(missing, "delimiter");
    }
  }

  /** A subsequence is no longer than its sequence. */
  lemma {:induction false} SubsequenceLength(xs: seq<Field>, ys: seq<Field>)
    requires IsSubsequence(xs, ys)
    ensures |xs| <= |ys|
    decreases |ys|
  {
    if ys != [] {
      if xs != [] && xs[0] == ys[0] && IsSubsequence(xs[1..], ys[1..]) {
        SubsequenceLength(xs[1..], ys[1..]);
      } else {
        SubsequenceLength(xs, ys[1..]);
      }
    }
  }

  /** Nothing is missing exactly when all four mandatory fields are set. */
  lemma NothingMissingIff(cfg: LabelConfig)
    ensures MissingFieldNames(cfg) == []
      <==> cfg.tenant != "" && cfg.environment != "" && cfg.stage != "" && cfg.workspace != ""
  {
    MissingFieldNamesExact(cfg);
  }

  /** The missing fields' names, check by check. */
  lemma MissingFieldNamesInOrder(cfg: LabelConfig)
    ensures MissingFieldNames(cfg)
      == (if cfg.tenant == "" then ["tenant"] else [])
         + ((if cfg.environment == "" then ["environment"] else [])
         + ((if cfg.stage == "" then ["stage"] else [])
         + (if cfg.workspace == "" then ["workspace"] else [])))
  {
    var t, e, s, w := IfEmpty(cfg, Tenant), IfEmpty(cfg, Environment), IfEmpty(cfg, Stage), IfEmpty(cfg, Workspace);
    EmptyMandatoryFields(cfg);
    FieldNamesOfFour(t, e, s, w);
    NameIfEmpty(cfg, Tenant);
    NameIfEmpty(cfg, Environment);
    NameIfEmpty(cfg, Stage);
    NameIfEmpty(cfg, Workspace);
  }

  /** The empty mandatory fields, check by check. */
  lemma EmptyMandatoryFields(cfg: LabelConfig)
    ensures EmptyFields(cfg, MandatoryFields)
      == IfEmpty(cfg, Tenant) + (IfEmpty(cfg, Environment) + (IfEmpty(cfg, Stage) + IfEmpty(cfg, Workspace)))
  {
    assert MandatoryFields == [Tenant, Environment, Stage, Workspace];
    EmptyFieldsOfFour(cfg, Tenant, Environment, Stage, Workspace);
  }

  /** Names of a concatenation of four lists. */
  lemma FieldNamesOfFour(t: seq<Field>, e: seq<Field>, s: seq<Field>, w: seq<Field>)
    ensures FieldNames(t + (e + (s + w))) == FieldNames(t) + (FieldNames(e) + (FieldNames(s) + FieldNames(w)))
  {
    calc {
      FieldNames(t + (e + (s + w)));
      == { FieldNamesConcat(t, e + (s + w)); }
      FieldNames(t) + FieldNames(e + (s + w));
      == { FieldNamesConcat(e, s + w); }
      FieldNames(t) + (FieldNames(e) + FieldNames(s + w));
      == { FieldNamesConcat(s, w); }
      FieldNames(t) + (FieldNames(e) + (FieldNames(s) + FieldNames(w)));
    }
  }

  /** The name of one field, listed when it is empty. */
  lemma NameIfEmpty(cfg: LabelConfig, f: Field)
    ensures FieldNames(IfEmpty(cfg, f)) == if FieldValue(cfg, f) == "" then [FieldName(f)] else []
  {
  }

  /** The missing fields' names, collected one check at a time. */
  method MissingFields(cfg: LabelConfig) returns (missing: seq<string>)
    ensures missing == MissingFieldNames(cfg)
  {
    missing := [];
    if cfg.tenant == "" {
      missing := missing + ["tenant"];
    }
    if cfg.environment == "" {
      missing := missing + ["environment"];
    }
    if cfg.stage == "" {
      missing := missing + ["stage"];
    }
    if cfg.workspace == "" {
      missing := missing + ["workspace"];
    }
    MissingFieldNamesInOrder(cfg);
  }

  /** A configuration without a workspace is refused, naming only the
      workspace when the other three values are set. */
  lemma EmptyWorkspaceRefused(cfg: LabelConfig)
    requires cfg.tenant != "" && cfg.environment != "" && cfg.stage != "" && cfg.workspace == ""
    ensures MissingFieldNames(cfg) == ["workspace"]
    ensures IncompleteConfiguration(MissingFieldNames(cfg)).detail
      == "Missing required provider values: workspace"
  {
    MissingFieldNamesInOrder(cfg);
    assert [] + ([] + ([] + ["workspace"])) == ["workspace"];
  }

  /** A copy of the tags without the Name entry. */
  method TagsWithoutName(tags: map<string, string>) returns (result: map<string, string>)
    ensures result.Keys == tags.Keys - {NameKey}
    ensures forall k :: k in result ==> result[k] == tags[k]
  {
    result := map[];
    var remaining := tags.Keys;
    while remaining != {}
      invariant remaining <= tags.Keys
      invariant result.Keys == (tags.Keys - remaining) - {NameKey}
      invariant forall k :: k in result ==> k in tags && result[k] == tags[k]
      decreases remaining
    {
      var k :| k in remaining;
      if k != NameKey {
        result := result[k := tags[k]];
      }
      remaining := remaining - {k};
    }
  }

  /** Putting the Name entry back into the tags without Name gives the tags. */
  lemma TagsWithoutNameRestores(tags: map<string, string>, withoutName: map<string, string>)
    requires NameKey in tags
    requires withoutName.Keys == tags.Keys - {NameKey}
    requires forall k :: k in withoutName ==> withoutName[k] == tags[k]
    ensures withoutName[NameKey := tags[NameKey]] == tags
    ensures withoutName == tags - {NameKey}
  {
    var restored := withoutName[NameKey := tags[NameKey]];
    assert restored.Keys == tags.Keys;
    forall k | k in tags ensures restored[k] == tags[k] {
    }
  }

  /** The read: refuse a missing or incomplete configuration; otherwise
      compute the identifier and the tags from the same inputs, null
      optional inputs taken as "", and record them. */
  method Read(config: Option<LabelConfig>, request: LabelDataSourceModel) returns (resp: ReadResponse)
    ensures config.None? ==> resp == ReadResponse([ProviderNotConfigured], None)
    ensures config.Some? && MissingFieldNames(config.value) != [] ==>
      resp == ReadResponse([IncompleteConfiguration(MissingFieldNames(config.value))], None)
    ensures resp.state.Some? <==> config.Some? && MissingFieldNames(config.value) == []
    ensures resp.state.Some? ==>
      var cfg := config.value;
      var qualifier := ValueOrEmpty(request.qualifier);
      var instanceKey := ValueOrEmpty(request.instanceKey);
      var delimiter := ValueOrEmpty(request.delimiter);
      var tags := GenerateTags(cfg, request.resourceType, qualifier, instanceKey, delimiter);
      && resp.diagnostics == []
      && resp.state.value == request.(
           id := Some(GenerateID(cfg, request.resourceType, qualifier, instanceKey, delimiter)),
           tags := Some(tags),
           tagsWithoutName := Some(tags - {NameKey}))
    ensures resp.state.Some? ==>
      var s := resp.state.value;
      && s.id.Some? && s.tags.Some? && s.tagsWithoutName.Some?
      && NameKey in s.tags.value && s.tags.value[NameKey] == s.id.value
      && NameKey !in s.tagsWithoutName.value
      && s.tagsWithoutName.value[NameKey := s.id.value] == s.tags.value
  {
    if config.None? {
      return ReadResponse([ProviderNotConfigured], None);
    }
    var cfg := config.value;
    var missing := MissingFields(cfg);
    if |missing| > 0 {
      return ReadResponse([IncompleteConfiguration(missing)], None);
    }

    var resourceType := request.resourceType;
    var qualifier, instanceKey, delimiter := "", "", "";
    if request.qualifier.Some? {
      qualifier := request.qualifier.value;
    }
    if request.instanceKey.Some? {
      instanceKey := request.instanceKey.value;
    }
    if request.delimiter.Some? {
      delimiter := request.delimiter.value;
    }

    var id := GenerateID(cfg, resourceType, qualifier, instanceKey, delimiter);
    var tags := GenerateTags(cfg, resourceType, qualifier, instanceKey, delimiter);

    var model := request;
    model := model.(id := Some(id));
    model := model.(tags := Some(tags));
    var tagsNoName := TagsWithoutName(tags);
    TagsWithoutNameRestores(tags, tagsNoName);
    model := model.(tagsWithoutName := Some(tagsNoName));
    resp := ReadResponse([], Some(model));
  }
}
