/** The naming convention: the identifier of a resource and its tag map,
    both built from the provider-level configuration and a per-resource
    descriptor. Every operation is a total function of its inputs. */
module Label {
  import opened GoStrings

  /** Workspace-level naming values. `namespace` is used only in the tags;
      `delimiter` is the default join string for identifiers. */
  datatype LabelConfig = LabelConfig(
    tenant: string,
    environment: string,
    stage: string,
    workspace: string,
    namespace: string,
    delimiter: string)

  /** The workspace's domain: its '-'-separated pieces after the first one,
      or none when the workspace holds no '-'. The first piece is a category
      prefix ("data", "dms", "eks", ...) and is dropped. */
  function ExtractDomain(workspace: string): (domain: seq<string>)
    ensures forall i :: 0 <= i < |domain| ==> '-' !in domain[i]
  {
    var parts := Split(workspace, '-');
    if |parts| <= 1 then [] else parts[1..]
  }

  /** A workspace without '-', the empty one included, has no domain. */
  lemma ExtractDomainEmpty(workspace: string)
    ensures ExtractDomain(workspace) == [] <==> '-' !in workspace
  {
    SplitCount(workspace, '-');
  }

  /** There are as many domain pieces as there are '-' in the workspace. */
  lemma ExtractDomainCount(workspace: string)
    ensures |ExtractDomain(workspace)| == multiset(workspace)['-']
  {
    SplitCount(workspace, '-');
  }

  /** Drop-first: the domain of `head-tail` is the split of `tail`, whatever
      `tail` holds, its empty pieces included. */
  lemma ExtractDomainDropsFirst(head: string, tail: string)
    requires '-' !in head
    ensures ExtractDomain(head + "-" + tail) == Split(tail, '-')
  {
    SplitAtSeparator(head, tail, '-');
  }

  /** The first token, a '-' and the dash-joined domain give back the
      workspace. */
  lemma ExtractDomainReconstructs(workspace: string)
    requires '-' in workspace
    ensures workspace == Split(workspace, '-')[0] + "-" + Join(ExtractDomain(workspace), "-")
  {
    var parts := Split(workspace, '-');
    SplitCount(workspace, '-');
    JoinSplit(workspace, '-');
    assert parts == [parts[0]] + parts[1..];
    JoinConcat([parts[0]], parts[1..], "-");
  }

  /** The delimiter the identifier is joined with: the per-call one when it
      is given, the configured one otherwise. */
  function EffectiveDelimiter(cfg: LabelConfig, delimiter: string): (d: string)
    ensures delimiter != "" ==> d == delimiter
    ensures delimiter == "" ==> d == cfg.delimiter
    ensures cfg.delimiter != "" ==> d != ""
  {
    if delimiter != "" then delimiter else cfg.delimiter
  }

  /** An optional input contributes one segment when it is non-empty and
      none otherwise. */
  function OptionalSegment(value: string): (segment: seq<string>)
    ensures segment == [] <==> value == ""
    ensures segment != [] ==> segment == [value]
  {
    if value != "" then [value] else []
  }

  /** The segments after the four fixed ones: qualifier, domain pieces and
      instance key. These are also what the Attributes tag joins. */
  function AttributeSegments(workspace: string, qualifier: string, instanceKey: string): (segments: seq<string>)
    ensures |segments| == (if qualifier != "" then 1 else 0) + |ExtractDomain(workspace)|
                          + (if instanceKey != "" then 1 else 0)
    ensures qualifier != "" ==> segments[0] == qualifier
    ensures instanceKey != "" ==> segments[|segments| - 1] == instanceKey
    ensures forall i :: 0 <= i < |segments| && segments[i] == "" ==> "" in ExtractDomain(workspace)
  {
    var q, domain, k := OptionalSegment(qualifier), ExtractDomain(workspace), OptionalSegment(instanceKey);
    var segments := q + domain + k;
    assert forall i :: |q| <= i < |q| + |domain| ==> segments[i] == domain[i - |q|];
    segments
  }

  /** The identifier's segments, in order. */
  function IdSegments(cfg: LabelConfig, resourceType: string, qualifier: string, instanceKey: string)
    : (parts: seq<string>)
    ensures |parts| >= 4 && parts[..4] == [cfg.tenant, cfg.environment, resourceType, cfg.stage]
    ensures parts[4..] == AttributeSegments(cfg.workspace, qualifier, instanceKey)
    ensures forall i :: 4 <= i < |parts| && parts[i] == "" ==>
      |OptionalSegment(qualifier)| <= i - 4 < |OptionalSegment(qualifier)| + |ExtractDomain(cfg.workspace)|
  {
    var domain := ExtractDomain(cfg.workspace);
    var parts := [cfg.tenant, cfg.environment, resourceType, cfg.stage]
      + OptionalSegment(qualifier) + domain + OptionalSegment(instanceKey);
    assert parts[4..] == OptionalSegment(qualifier) + domain + OptionalSegment(instanceKey);
    parts
  }

  /** The resource identifier. */
  function GenerateID(cfg: LabelConfig, resourceType: string, qualifier: string, instanceKey: string,
                      delimiter: string): (id: string)
    ensures cfg.tenant <= id
    ensures cfg.tenant != "" ==> id != ""
  {
    Join(IdSegments(cfg, resourceType, qualifier, instanceKey), EffectiveDelimiter(cfg, delimiter))
  }

  /** Joining four segments. */
  lemma JoinFour(a: string, b: string, c: string, e: string, d: string)
    ensures Join([a, b, c, e], d) == a + d + b + d + c + d + e
  {
    assert [a, b, c, e][1..] == [b, c, e];
    JoinThree(b, c, e, d);
    var rest := b + d + c + d + e;
    assert Join([a, b, c, e], d) == a + d + rest;
    assert a + d + rest == a + d + b + d + c + d + e;
  }

  /** The identifier is the four fixed segments joined with the effective
      delimiter, followed, when there are any, by the delimiter and the
      remaining segments joined the same way. */
  lemma GenerateIDStructure(cfg: LabelConfig, resourceType: string, qualifier: string,
                            instanceKey: string, delimiter: string)
    ensures var d := EffectiveDelimiter(cfg, delimiter);
      var fixed := cfg.tenant + d + cfg.environment + d + resourceType + d + cfg.stage;
      var rest := AttributeSegments(cfg.workspace, qualifier, instanceKey);
      GenerateID(cfg, resourceType, qualifier, instanceKey, delimiter)
        == if rest == [] then fixed else fixed + d + Join(rest, d)
  {
    var d := EffectiveDelimiter(cfg, delimiter);
    var four := [cfg.tenant, cfg.environment, resourceType, cfg.stage];
    var rest := AttributeSegments(cfg.workspace, qualifier, instanceKey);
    var parts := IdSegments(cfg, resourceType, qualifier, instanceKey);
    assert parts == four + rest;
    assert Join(four, d) == cfg.tenant + d + cfg.environment + d + resourceType + d + cfg.stage by {
      JoinFour(cfg.tenant, cfg.environment, resourceType, cfg.stage, d);
    }
    if rest != [] {
      JoinConcat(four, rest, d);
    } else {
      assert parts == four;
    }
  }

  /** The per-call delimiter wins over the configured one; without it the
      configured delimiter is used. */
  lemma DelimiterOverrideWins(cfg: LabelConfig, resourceType: string, qualifier: string,
                              instanceKey: string, delimiter: string)
    ensures delimiter != "" ==>
      GenerateID(cfg, resourceType, qualifier, instanceKey, delimiter)
        == GenerateID(cfg.(delimiter := delimiter), resourceType, qualifier, instanceKey, "")
    ensures GenerateID(cfg, resourceType, qualifier, instanceKey, "")
      == Join(IdSegments(cfg, resourceType, qualifier, instanceKey), cfg.delimiter)
  {
  }

  /** Segments are joined verbatim: with a one-character delimiter that no
      segment contains, splitting the identifier at it gives the segments
      back. */
  lemma GenerateIDResplits(cfg: LabelConfig, resourceType: string, qualifier: string,
                           instanceKey: string, delimiter: string, c: char)
    requires EffectiveDelimiter(cfg, delimiter) == [c]
    requires var parts := IdSegments(cfg, resourceType, qualifier, instanceKey);
      forall i :: 0 <= i < |parts| ==> c !in parts[i]
    ensures Split(GenerateID(cfg, resourceType, qualifier, instanceKey, delimiter), c)
      == IdSegments(cfg, resourceType, qualifier, instanceKey)
  {
    SplitJoin(IdSegments(cfg, resourceType, qualifier, instanceKey), c);
  }

  /** With the delimiter "-", the identifier splits back into its segments
      whenever the six caller-supplied values hold no '-': the domain pieces
      never do. */
  lemma GenerateIDResplitsOnDash(cfg: LabelConfig, resourceType: string, qualifier: string,
                                 instanceKey: string, delimiter: string)
    requires EffectiveDelimiter(cfg, delimiter) == "-"
    requires '-' !in cfg.tenant && '-' !in cfg.environment && '-' !in resourceType
    requires '-' !in cfg.stage && '-' !in qualifier && '-' !in instanceKey
    ensures Split(GenerateID(cfg, resourceType, qualifier, instanceKey, delimiter), '-')
      == IdSegments(cfg, resourceType, qualifier, instanceKey)
  {
    var parts := IdSegments(cfg, resourceType, qualifier, instanceKey);
    var q := OptionalSegment(qualifier);
    var domain := ExtractDomain(cfg.workspace);
    forall i | 0 <= i < |parts| ensures '-' !in parts[i] {
      if 4 + |q| <= i < 4 + |q| + |domain| {
        assert parts[i] == domain[i - 4 - |q|];
      } else if i >= 4 + |q| + |domain| {
        assert parts[i] == instanceKey;
      } else if i >= 4 {
        assert parts[i] == qualifier;
      } else {
        assert parts[..4][i] == parts[i];
      }
    }
    GenerateIDResplits(cfg, resourceType, qualifier, instanceKey, delimiter, '-');
  }

  /** An empty qualifier or instance key adds no segment, so it never puts
      the delimiter twice in a row: with non-empty fixed segments and domain
      pieces, none containing the one-character delimiter, the identifier
      has no doubled delimiter and neither starts nor ends with it, whether
      or not the qualifier and instance key are given. */
  lemma GenerateIDNoDoubledDelimiter(cfg: LabelConfig, resourceType: string, qualifier: string,
                                     instanceKey: string, delimiter: string, c: char)
    requires EffectiveDelimiter(cfg, delimiter) == [c]
    requires cfg.tenant != "" && cfg.environment != "" && resourceType != "" && cfg.stage != ""
    requires c !in cfg.tenant && c !in cfg.environment && c !in resourceType && c !in cfg.stage
    requires c !in qualifier && c !in instanceKey
    requires var domain := ExtractDomain(cfg.workspace);
      forall i :: 0 <= i < |domain| ==> domain[i] != "" && c !in domain[i]
    ensures var id := GenerateID(cfg, resourceType, qualifier, instanceKey, delimiter);
      id[0] != c && id[|id| - 1] != c && NoDoubledSeparator(id, c)
  {
    var parts := IdSegments(cfg, resourceType, qualifier, instanceKey);
    var q := OptionalSegment(qualifier);
    var domain := ExtractDomain(cfg.workspace);
    forall i | 0 <= i < |parts| ensures parts[i] != "" && c !in parts[i] {
      if 4 + |q| <= i < 4 + |q| + |domain| {
        assert parts[i] == domain[i - 4 - |q|];
      } else if i >= 4 + |q| + |domain| {
        assert parts[i] == instanceKey;
      } else if i >= 4 {
        assert parts[i] == qualifier;
      } else {
        assert parts[..4][i] == parts[i];
      }
    }
    JoinNoDoubledSeparator(parts, c);
  }

  /** Two '-'-free strings joined by one '-' split back into the two. */
  lemma SplitTwo(first: string, second: string)
    requires '-' !in first && '-' !in second
    ensures Split(first + "-" + second, '-') == [first, second]
  {
    SplitAtSeparator(first, second, '-');
    SplitNoSeparator(second, '-');
  }

  /** Empty pieces of the workspace are not removed: the workspace
      "data--api" has the domain ["", "api"]. */
  lemma EmptyDomainPiecesKept(workspace: string)
    requires workspace == "data--api"
    ensures ExtractDomain(workspace) == ["", "api"]
  {
    assert workspace == "data" + "-" + "-api";
    ExtractDomainDropsFirst("data", "-api");
    assert "-api" == "" + "-" + "api";
    SplitTwo("", "api");
  }

  /** ... and the empty piece doubles the delimiter in the identifier, for
      "data--api" or any workspace with that domain. */
  lemma EmptyDomainPieceDoublesDelimiter(cfg: LabelConfig)
    requires cfg.tenant == "dpl" && cfg.environment == "ane2" && cfg.stage == "dev"
    requires ExtractDomain(cfg.workspace) == ["", "api"] && cfg.delimiter == "-"
    ensures GenerateID(cfg, "sg", "", "", "") == "dpl-ane2-sg-dev--api"
  {
    IdentifierWithDomain(cfg, "sg", "", "", "", "dpl-ane2-sg-dev", ["", "api"]);
    EmptyDomainPieceJoin();
  }

  /** The literal join and concatenation the doubled-delimiter example needs. */
  lemma EmptyDomainPieceJoin()
    ensures "dpl-ane2-sg-dev" + "-" + Join(["", "api"], "-") == "dpl-ane2-sg-dev--api"
  {
    assert Join(["", "api"], "-") == "-api";
  }

  /** The tag keys, fixed literals. */
  const NameKey := "Name"
  const TenantKey := "Tenant"
  const EnvironmentKey := "Environment"
  const StageKey := "Stage"
  const NamespaceKey := "Namespace"
  const AttributesKey := "Attributes"
  const TagKeys: set<string> := {NameKey, TenantKey, EnvironmentKey, StageKey, NamespaceKey, AttributesKey}

  /** The Attributes tag value: the attribute segments always joined with
      '-', whatever delimiter the identifier uses. */
  function Attributes(workspace: string, qualifier: string, instanceKey: string): (attributes: string)
    ensures var segments := AttributeSegments(workspace, qualifier, instanceKey);
      attributes == "" <==> segments == [] || segments == [""]
  {
    var segments := AttributeSegments(workspace, qualifier, instanceKey);
    JoinIsEmpty(segments, "-");
    Join(segments, "-")
  }

  /** The tag map of a resource. */
  function GenerateTags(cfg: LabelConfig, resourceType: string, qualifier: string, instanceKey: string,
                        delimiter: string): (tags: map<string, string>)
    ensures tags.Keys <= TagKeys
    ensures NameKey in tags && tags[NameKey] == GenerateID(cfg, resourceType, qualifier, instanceKey, delimiter)
    ensures TenantKey in tags && tags[TenantKey] == cfg.tenant
    ensures EnvironmentKey in tags && tags[EnvironmentKey] == cfg.environment
    ensures StageKey in tags && tags[StageKey] == cfg.stage
    ensures NamespaceKey in tags <==> cfg.namespace != ""
    ensures NamespaceKey in tags ==> tags[NamespaceKey] == cfg.namespace
    ensures AttributesKey in tags <==> Attributes(cfg.workspace, qualifier, instanceKey) != ""
    ensures AttributesKey in tags ==> tags[AttributesKey] == Attributes(cfg.workspace, qualifier, instanceKey)
  {
    var name := GenerateID(cfg, resourceType, qualifier, instanceKey, delimiter);
    var attributes := Attributes(cfg.workspace, qualifier, instanceKey);
    var tags := map[NameKey := name, TenantKey := cfg.tenant, EnvironmentKey := cfg.environment,
                    StageKey := cfg.stage];
    var tags := if cfg.namespace != "" then tags[NamespaceKey := cfg.namespace] else tags;
    if attributes != "" then tags[AttributesKey := attributes] else tags
  }

  /** The tag map has four entries, plus one for a namespace and one for
      non-empty attributes. */
  lemma GenerateTagsSize(cfg: LabelConfig, resourceType: string, qualifier: string,
                         instanceKey: string, delimiter: string)
    ensures var tags := GenerateTags(cfg, resourceType, qualifier, instanceKey, delimiter);
      |tags| == 4 + (if cfg.namespace != "" then 1 else 0)
                  + (if Attributes(cfg.workspace, qualifier, instanceKey) != "" then 1 else 0)
    ensures 4 <= |GenerateTags(cfg, resourceType, qualifier, instanceKey, delimiter)| <= 6
  {
    var tags := GenerateTags(cfg, resourceType, qualifier, instanceKey, delimiter);
    var hasNamespace := cfg.namespace != "";
    var hasAttributes := Attributes(cfg.workspace, qualifier, instanceKey) != "";
    TagKeyCount(hasNamespace, hasAttributes);
    TagKeysByPresence(tags, hasNamespace, hasAttributes);
  }

  /** A tag map over the six keys that holds the four fixed ones has the
      key set its two optional keys decide. */
  lemma TagKeysByPresence(tags: map<string, string>, hasNamespace: bool, hasAttributes: bool)
    requires tags.Keys <= TagKeys
    requires NameKey in tags && TenantKey in tags && EnvironmentKey in tags && StageKey in tags
    requires NamespaceKey in tags <==> hasNamespace
    requires AttributesKey in tags <==> hasAttributes
    ensures tags.Keys == TagKeySet(hasNamespace, hasAttributes)
  {
  }

  /** The four tag keys always present, and the optional two. */
  function TagKeySet(hasNamespace: bool, hasAttributes: bool): set<string>
  {
    {NameKey, TenantKey, EnvironmentKey, StageKey}
      + (if hasNamespace then {NamespaceKey} else {})
      + (if hasAttributes then {AttributesKey} else {})
  }

  /** The six tag keys are distinct. */
  lemma TagKeyCount(hasNamespace: bool, hasAttributes: bool)
    ensures |TagKeySet(hasNamespace, hasAttributes)|
      == 4 + (if hasNamespace then 1 else 0) + (if hasAttributes then 1 else 0)
  {
    var base: set<string> := {NameKey, TenantKey, EnvironmentKey, StageKey};
    assert |base| == 4;
    var withNamespace := base + (if hasNamespace then {NamespaceKey} else {});
    assert |withNamespace| == 4 + (if hasNamespace then 1 else 0);
  }

  /** The delimiter, per-call or configured, changes only the Name tag. */
  lemma DelimiterAffectsOnlyName(cfg: LabelConfig, resourceType: string, qualifier: string,
                                 instanceKey: string, delimiter: string,
                                 otherDefault: string, otherDelimiter: string)
    ensures GenerateTags(cfg, resourceType, qualifier, instanceKey, delimiter) - {NameKey}
      == GenerateTags(cfg.(delimiter := otherDefault), resourceType, qualifier, instanceKey, otherDelimiter)
         - {NameKey}
  {
    var t1 := GenerateTags(cfg, resourceType, qualifier, instanceKey, delimiter);
    var t2 := GenerateTags(cfg.(delimiter := otherDefault), resourceType, qualifier, instanceKey, otherDelimiter);
    TagsAgreeOffName(t1, t2);
  }

  /** Two tag maps over the six keys that agree on every key but Name are
      equal once Name is removed. */
  lemma TagsAgreeOffName(t1: map<string, string>, t2: map<string, string>)
    requires t1.Keys <= TagKeys && t2.Keys <= TagKeys
    requires forall k :: k in TagKeys && k != NameKey ==>
      (k in t1 <==> k in t2) && (k in t1 ==> t1[k] == t2[k])
    ensures t1 - {NameKey} == t2 - {NameKey}
  {
    var m1, m2 := t1 - {NameKey}, t2 - {NameKey};
    assert m1.Keys == m2.Keys;
  }

  /** The Attributes value is the workspace text after its first '-', with
      the qualifier and a '-' in front of it and a '-' and the instance key
      behind it, each only when given. */
  lemma AttributesAfterFirstDash(head: string, tail: string, qualifier: string, instanceKey: string)
    requires '-' !in head
    ensures Attributes(head + "-" + tail, qualifier, instanceKey)
      == (if qualifier != "" then qualifier + "-" else "") + tail
         + (if instanceKey != "" then "-" + instanceKey else "")
  {
    var domain := ExtractDomain(head + "-" + tail);
    ExtractDomainDropsFirst(head, tail);
    JoinSplit(tail, '-');
    assert Join(domain, "-") == tail;
    var q := OptionalSegment(qualifier);
    var k := OptionalSegment(instanceKey);
    var middle := Join(q + domain, "-");
    assert middle == (if qualifier != "" then qualifier + "-" else "") + tail by {
      if qualifier != "" {
        JoinConcat(q, domain, "-");
      } else {
        assert q + domain == domain;
      }
    }
    if instanceKey != "" {
      JoinConcat(q + domain, k, "-");
    } else {
      assert q + domain + k == q + domain;
    }
  }

  /** A workspace without '-' contributes nothing to Attributes. */
  lemma AttributesWithoutDomain(workspace: string, qualifier: string, instanceKey: string)
    requires '-' !in workspace
    ensures Attributes(workspace, qualifier, instanceKey)
      == qualifier + (if qualifier != "" && instanceKey != "" then "-" else "") + instanceKey
  {
    ExtractDomainEmpty(workspace);
    var q := OptionalSegment(qualifier);
    var k := OptionalSegment(instanceKey);
    assert AttributeSegments(workspace, qualifier, instanceKey) == q + k;
    if qualifier != "" && instanceKey != "" {
      JoinConcat(q, k, "-");
    } else if qualifier != "" {
      assert q + k == q;
    } else {
      assert q + k == k;
    }
  }

  /** The Attributes tag is present exactly when a qualifier or instance key
      is given or the workspace has text after its first '-'. */
  lemma AttributesPresence(cfg: LabelConfig, resourceType: string, qualifier: string,
                           instanceKey: string, delimiter: string, head: string, tail: string)
    requires '-' !in head
    requires cfg.workspace == head || cfg.workspace == head + "-" + tail
    ensures AttributesKey in GenerateTags(cfg, resourceType, qualifier, instanceKey, delimiter)
      <==> qualifier != "" || instanceKey != "" || (cfg.workspace != head && tail != "")
  {
    if cfg.workspace == head {
      AttributesWithoutDomain(head, qualifier, instanceKey);
    } else {
      assert '-' in cfg.workspace;
      AttributesAfterFirstDash(head, tail, qualifier, instanceKey);
    }
  }

  /** Presence follows the joined value, not the segments' contents: a
      workspace ending in "--" has two empty domain pieces, yet, with no
      qualifier or instance key, the tags carry Attributes "-". */
  lemma EmptySegmentsStillTagged(cfg: LabelConfig, resourceType: string, delimiter: string, head: string)
    requires '-' !in head && cfg.workspace == head + "--"
    ensures var segments := AttributeSegments(cfg.workspace, "", "");
      segments == ["", ""] && forall i :: 0 <= i < |segments| ==> segments[i] == ""
    ensures var tags := GenerateTags(cfg, resourceType, "", "", delimiter);
      AttributesKey in tags && tags[AttributesKey] == "-"
  {
    assert cfg.workspace == head + "-" + ("" + "-" + "");
    ExtractDomainDropsFirst(head, "" + "-" + "");
    SplitTwo("", "");
    assert AttributeSegments(cfg.workspace, "", "") == ["", ""];
    assert Join(["", ""], "-") == "-";
  }

  /** With the delimiter "-", the Name tag is the fixed segments followed by
      '-' and the Attributes value. */
  lemma NameExtendsAttributes(cfg: LabelConfig, resourceType: string, qualifier: string,
                              instanceKey: string, delimiter: string)
    requires EffectiveDelimiter(cfg, delimiter) == "-"
    requires AttributeSegments(cfg.workspace, qualifier, instanceKey) != []
    ensures GenerateTags(cfg, resourceType, qualifier, instanceKey, delimiter)[NameKey]
      == cfg.tenant + "-" + cfg.environment + "-" + resourceType + "-" + cfg.stage + "-"
         + Attributes(cfg.workspace, qualifier, instanceKey)
  {
    GenerateIDStructure(cfg, resourceType, qualifier, instanceKey, delimiter);
  }

  /** The reference configuration: tenant "dpl", environment "ane2", stage
      "dev", workspace "data-sales-api", namespace "acme", delimiter "-". */
  lemma ReferenceDomain(cfg: LabelConfig)
    requires cfg.workspace == "data-sales-api"
    ensures ExtractDomain(cfg.workspace) == ["sales", "api"]
  {
    assert cfg.workspace == "data" + "-" + ("sales" + "-" + "api");
    DomainOfThreeTokens("data", "sales", "api");
  }

  /** A workspace of three '-'-free tokens has the last two as its domain. */
  lemma DomainOfThreeTokens(category: string, first: string, second: string)
    requires '-' !in category && '-' !in first && '-' !in second
    ensures ExtractDomain(category + "-" + (first + "-" + second)) == [first, second]
  {
    ExtractDomainDropsFirst(category, first + "-" + second);
    SplitTwo(first, second);
  }

  /** The identifier for a configuration whose four fixed segments, joined,
      are `fixed` and whose attribute segments are `rest`. */
  lemma IdentifierWithDomain(cfg: LabelConfig, resourceType: string, qualifier: string,
                             instanceKey: string, delimiter: string, fixed: string, rest: seq<string>)
    requires fixed == cfg.tenant + EffectiveDelimiter(cfg, delimiter) + cfg.environment
      + EffectiveDelimiter(cfg, delimiter) + resourceType + EffectiveDelimiter(cfg, delimiter) + cfg.stage
    requires AttributeSegments(cfg.workspace, qualifier, instanceKey) == rest && rest != []
    ensures GenerateID(cfg, resourceType, qualifier, instanceKey, delimiter)
      == fixed + EffectiveDelimiter(cfg, delimiter) + Join(rest, EffectiveDelimiter(cfg, delimiter))
  {
    GenerateIDStructure(cfg, resourceType, qualifier, instanceKey, delimiter);
  }

  /** The literal join and concatenation the reference identifier needs. */
  lemma ReferenceIdentifierJoin()
    ensures "dpl-ane2-role-dev" + "-" + Join(["emr", "sales", "api", "shared-pii-etl"], "-")
      == "dpl-ane2-role-dev-emr-sales-api-shared-pii-etl"
  {
    JoinFour("emr", "sales", "api", "shared-pii-etl", "-");
    assert "dpl-ane2-role-dev" + "-" + ("emr" + "-" + "sales" + "-" + "api" + "-" + "shared-pii-etl")
      == "dpl-ane2-role-dev-emr-sales-api-shared-pii-etl";
  }

  /** The literal join and concatenation the underscore identifier needs. */
  lemma ReferenceUnderscoreJoin()
    ensures "dpl_ane2_db_dev" + "_" + Join(["refined", "sales", "api"], "_") == "dpl_ane2_db_dev_refined_sales_api"
  {
    JoinThree("refined", "sales", "api", "_");
  }

  /** The literal join the reference attributes need. */
  lemma ReferenceAttributesJoin()
    ensures Join(["refined", "sales", "api"], "-") == "refined-sales-api"
  {
    JoinThree("refined", "sales", "api", "-");
  }

  /** A qualifier, the domain and an instance key, with the configured "-",
      for any workspace whose domain is "sales", "api" (such as
      "data-sales-api", see ReferenceDomain). */
  lemma ReferenceIdentifier(cfg: LabelConfig)
    requires cfg.tenant == "dpl" && cfg.environment == "ane2" && cfg.stage == "dev"
    requires ExtractDomain(cfg.workspace) == ["sales", "api"] && cfg.delimiter == "-"
    ensures GenerateID(cfg, "role", "emr", "shared-pii-etl", "") == "dpl-ane2-role-dev-emr-sales-api-shared-pii-etl"
  {
    ReferenceIdentifierSegments(cfg);
    ReferenceIdentifierJoin();
  }

  /** The segments of the reference identifier, before the literal joins. */
  lemma ReferenceIdentifierSegments(cfg: LabelConfig)
    requires cfg.tenant == "dpl" && cfg.environment == "ane2" && cfg.stage == "dev"
    requires ExtractDomain(cfg.workspace) == ["sales", "api"] && cfg.delimiter == "-"
    ensures GenerateID(cfg, "role", "emr", "shared-pii-etl", "")
      == "dpl-ane2-role-dev" + "-" + Join(["emr", "sales", "api", "shared-pii-etl"], "-")
  {
    assert "dpl-ane2-role-dev" == cfg.tenant + EffectiveDelimiter(cfg, "") + cfg.environment
      + EffectiveDelimiter(cfg, "") + "role" + EffectiveDelimiter(cfg, "") + cfg.stage;
    assert AttributeSegments(cfg.workspace, "emr", "shared-pii-etl") == ["emr", "sales", "api", "shared-pii-etl"];
    IdentifierWithDomain(cfg, "role", "emr", "shared-pii-etl", "", "dpl-ane2-role-dev",
                         ["emr", "sales", "api", "shared-pii-etl"]);
  }

  /** An overriding "_" joins the identifier. */
  lemma ReferenceUnderscore(cfg: LabelConfig)
    requires cfg.tenant == "dpl" && cfg.environment == "ane2" && cfg.stage == "dev"
    requires ExtractDomain(cfg.workspace) == ["sales", "api"] && cfg.delimiter == "-"
    ensures GenerateID(cfg, "db", "refined", "", "_") == "dpl_ane2_db_dev_refined_sales_api"
  {
    ReferenceUnderscoreSegments(cfg);
    ReferenceUnderscoreJoin();
  }

  /** Whatever the delimiter, the Attributes tag joins with '-'. */
  lemma ReferenceUnderscoreAttributes(cfg: LabelConfig)
    requires cfg.tenant == "dpl" && cfg.environment == "ane2" && cfg.stage == "dev"
    requires ExtractDomain(cfg.workspace) == ["sales", "api"] && cfg.delimiter == "-"
    ensures GenerateTags(cfg, "db", "refined", "", "_")[AttributesKey] == "refined-sales-api"
  {
    ReferenceUnderscoreSegments(cfg);
    ReferenceAttributesJoin();
  }

  /** The segments of the underscore identifier and its attributes. */
  lemma ReferenceUnderscoreSegments(cfg: LabelConfig)
    requires cfg.tenant == "dpl" && cfg.environment == "ane2" && cfg.stage == "dev"
    requires ExtractDomain(cfg.workspace) == ["sales", "api"] && cfg.delimiter == "-"
    ensures GenerateID(cfg, "db", "refined", "", "_")
      == "dpl_ane2_db_dev" + "_" + Join(["refined", "sales", "api"], "_")
    ensures Attributes(cfg.workspace, "refined", "") == Join(["refined", "sales", "api"], "-")
  {
    assert "dpl_ane2_db_dev" == cfg.tenant + EffectiveDelimiter(cfg, "_") + cfg.environment
      + EffectiveDelimiter(cfg, "_") + "db" + EffectiveDelimiter(cfg, "_") + cfg.stage;
    assert AttributeSegments(cfg.workspace, "refined", "") == ["refined", "sales", "api"];
    IdentifierWithDomain(cfg, "db", "refined", "", "_", "dpl_ane2_db_dev", ["refined", "sales", "api"]);
  }

  /** A workspace without '-', such as "vpc", has no domain: the identifier
      is the four fixed segments alone ... */
  lemma ReferenceSingleSegment(cfg: LabelConfig)
    requires cfg.tenant == "dpl" && cfg.environment == "ane2" && cfg.stage == "dev"
    requires '-' !in cfg.workspace && cfg.delimiter == "-"
    ensures GenerateID(cfg, "sg", "", "", "") == "dpl-ane2-sg-dev"
  {
    ExtractDomainEmpty(cfg.workspace);
    IdentifierWithoutDomain(cfg, "sg", "");
    assert [cfg.tenant, cfg.environment, "sg", cfg.stage] == ["dpl", "ane2", "sg", "dev"];
    ReferenceSingleSegmentJoin();
  }

  /** The literal join the single-segment identifier needs. */
  lemma ReferenceSingleSegmentJoin()
    ensures Join(["dpl", "ane2", "sg", "dev"], "-") == "dpl-ane2-sg-dev"
  {
    JoinFour("dpl", "ane2", "sg", "dev", "-");
  }

  /** With no domain, qualifier or instance key, the identifier is the four
      fixed segments joined. */
  lemma IdentifierWithoutDomain(cfg: LabelConfig, resourceType: string, delimiter: string)
    requires ExtractDomain(cfg.workspace) == []
    ensures GenerateID(cfg, resourceType, "", "", delimiter)
      == Join([cfg.tenant, cfg.environment, resourceType, cfg.stage], EffectiveDelimiter(cfg, delimiter))
  {
    var parts := IdSegments(cfg, resourceType, "", "");
    assert parts[4..] == [];
    assert parts == parts[..4];
  }

  /** ... and, without a qualifier or an instance key, the tags have no
      Attributes. */
  lemma SingleSegmentNoAttributes(cfg: LabelConfig, resourceType: string, delimiter: string)
    requires '-' !in cfg.workspace
    ensures AttributesKey !in GenerateTags(cfg, resourceType, "", "", delimiter)
  {
    AttributesWithoutDomain(cfg.workspace, "", "");
  }

  /** The data source scenarios configure the workspace "sales-api". The
      code drops its first token, so the domain is "api" alone, ... */
  lemma SalesApiDomain(cfg: LabelConfig)
    requires cfg.workspace == "sales-api"
    ensures ExtractDomain(cfg.workspace) == ["api"]
  {
    assert cfg.workspace == "sales" + "-" + "api";
    ExtractDomainDropsFirst("sales", "api");
    SplitNoSeparator("api", '-');
  }

  /** ... and role/emr/shared-pii-etl gives an identifier without "sales". */
  lemma SalesApiIdentifier(cfg: LabelConfig)
    requires cfg.tenant == "dpl" && cfg.environment == "ane2" && cfg.stage == "dev"
    requires ExtractDomain(cfg.workspace) == ["api"] && cfg.delimiter == "-"
    ensures GenerateID(cfg, "role", "emr", "shared-pii-etl", "") == "dpl-ane2-role-dev-emr-api-shared-pii-etl"
  {
    assert "dpl-ane2-role-dev" == cfg.tenant + EffectiveDelimiter(cfg, "") + cfg.environment
      + EffectiveDelimiter(cfg, "") + "role" + EffectiveDelimiter(cfg, "") + cfg.stage;
    assert AttributeSegments(cfg.workspace, "emr", "shared-pii-etl") == ["emr", "api", "shared-pii-etl"];
    IdentifierWithDomain(cfg, "role", "emr", "shared-pii-etl", "", "dpl-ane2-role-dev",
                         ["emr", "api", "shared-pii-etl"]);
    SalesApiIdentifierJoin();
  }

  /** The literal join and concatenation that identifier needs. */
  lemma SalesApiIdentifierJoin()
    ensures "dpl-ane2-role-dev" + "-" + Join(["emr", "api", "shared-pii-etl"], "-")
      == "dpl-ane2-role-dev-emr-api-shared-pii-etl"
  {
    JoinThree("emr", "api", "shared-pii-etl", "-");
  }

  /** Joining three segments. */
  lemma JoinThree(a: string, b: string, c: string, d: string)
    ensures Join([a, b, c], d) == a + d + b + d + c
  {
    assert [a, b, c][1..] == [b, c];
    assert [b, c][1..] == [c];
    assert Join([b, c], d) == b + d + c;
  }
}
