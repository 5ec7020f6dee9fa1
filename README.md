# Label naming convention — Dafny model

The label provider gives every cloud resource an identifier and a tag map.
Both are built from a workspace-level configuration (tenant, environment,
stage, workspace, optional namespace, default delimiter) and from a
per-resource descriptor (resource type, optional qualifier, optional instance
key, optional delimiter override). This project models that algorithm and
the label data source's read, which wraps it:

- `go_strings.dfy` (module `GoStrings`) holds the two Go library functions
  the algorithm relies on. `strings.Split` is modelled on a one-character
  separator: empty pieces are kept, and `""` gives `[""]`. `strings.Join` is
  modelled too. The module proves the round trips between them.
- `label.dfy` (module `Label`) models `internal/provider/label.go`:
  - the configuration record;
  - the workspace's domain, which is the pieces after the first `-`;
  - the delimiter resolution;
  - the identifier, whose empty qualifier and instance key are skipped;
  - the tag map, whose `Attributes` value is always joined with `-`.

  All of these are pure functions, as they are in Go. Lemmas state what the
  results mean. Examples from the repository's own unit and acceptance
  scenarios are stated as lemmas.
- `datasource_label.dfy` (module `DataSourceLabel`) models the read
  (`internal/provider/datasource_label.go`, lines 92-167):
  - a missing provider configuration is refused;
  - an incomplete configuration is refused with the missing fields listed,
    by a method that appends one name per check, as the Go code does;
  - a null optional input is taken as `""`;
  - the identifier and tags are computed;
  - the tags without `Name` are copied by a loop over the tag keys.

The workspace policy is the one the code implements: the first `-`-separated
token is dropped (`"data-sales-api"` gives the domain `sales`, `api`; `"vpc"`
gives none). The unit scenarios in `internal/provider/label_test.go` agree
with it. The acceptance scenarios in
`internal/provider/datasource_label_test.go` expect the full-split behaviour
instead, and the code as written does not produce what they expect. The
model follows the code:

- Lines 27-33, 205 and 345 configure the workspace `"sales-api"`, whose
  domain under the code is `api` alone (`Label.SalesApiDomain`). Every
  scenario with that workspace therefore expects a `sales` segment the code
  does not produce:
  - line 52;
  - lines 79-86;
  - line 111, where the code gives `"dpl-ane2-role-dev-emr-api-shared-pii-etl"` (`Label.SalesApiIdentifier`);
  - lines 139-146, where the code gives Attributes `"refined-api"`;
  - lines 174-187;
  - line 220;
  - line 359;
  - lines 430-437.
- Lines 292 and 318-326 use the workspace `"sales-api-orders"`, whose domain
  under the code is `api`, `orders`.
- Lines 377 and 394-401 use the workspace `"eks-v1_34"`, whose domain under
  the code is `v1_34`.
- Lines 238 and 265-273 use the workspace `"vpc"`, which has no domain
  under the code. The code gives `"dpl-ane2-sg-dev"` and no Attributes
  (`Label.ReferenceSingleSegment`, `Label.SingleSegmentNoAttributes`).
- Lines 446-492 expect a read to succeed with no workspace configured. The
  read refuses it, because the workspace is one of the four mandatory
  values at `internal/provider/datasource_label.go:116-126`
  (`DataSourceLabel.EmptyWorkspaceRefused`).

One might read the `Attributes` rule as "present if and only if the
qualifier, the instance key or at least one domain segment is non-empty".
The code instead tests whether the joined string is non-empty
(`label.go:85-87`). That is the case exactly when the attribute segments are
neither `[]` nor `[""]` (`Label.Attributes`). The two rules differ for a
workspace such as `"a--"`: its domain is `["", ""]`, every segment is
empty, and the joined value is `"-"`, so the tag is present
(`Label.EmptySegmentsStillTagged`). The model follows the code.
`Label.AttributesPresence` states the code's rule in terms of the workspace
text.

## Model

| member | source | states |
|---|---|---|
| GoStrings.Split | internal/provider/label.go:20 | `strings.Split` on one character: at least one piece, and no piece holds the separator |
| GoStrings.Join | internal/provider/label.go:54 | `strings.Join`: no parts give `""`; the length is the parts' lengths plus one separator between each two neighbours; the first part is a prefix |
| GoStrings.JoinSplit | internal/provider/label.go:20 | joining the pieces of a split with the separator gives the original string back, so no text is lost and empty pieces are kept |
| GoStrings.SplitJoin | internal/provider/label.go:54 | splitting a join of separator-free parts gives the parts back |
| GoStrings.SplitCount | internal/provider/label.go:20-21 | a split yields exactly one more piece than the number of separators |
| GoStrings.SplitAtSeparator | internal/provider/label.go:20-24 | splitting at the first separator gives the text before it, followed by the pieces of the text after it |
| GoStrings.JoinConcat | internal/provider/label.go:37-54 | joining a concatenation puts exactly one separator between the two joins |
| GoStrings.JoinIsEmpty | internal/provider/label.go:72-87 | with a non-empty separator, a join is empty exactly for no parts or one empty part |
| GoStrings.JoinNoDoubledSeparator | internal/provider/label.go:54 | joining non-empty separator-free parts never yields the separator twice in a row, nor at either end |
| Label.ExtractDomain | internal/provider/label.go:19-25 | no domain piece contains `-` |
| Label.ExtractDomainEmpty | internal/provider/label.go:20-23 | the domain is empty exactly when the workspace has no `-`, the empty workspace included |
| Label.ExtractDomainCount | internal/provider/label.go:19-25 | there are as many domain pieces as `-` characters in the workspace |
| Label.ExtractDomainDropsFirst | internal/provider/label.go:19-25 | the domain of `head-tail` is the split of `tail`: only the first token is dropped |
| Label.ExtractDomainReconstructs | internal/provider/label.go:19-25 | the first token, a `-` and the dash-joined domain give back the workspace |
| Label.EffectiveDelimiter | internal/provider/label.go:31-33 | a non-empty per-call delimiter is used; otherwise the configured one is used; a non-empty configured delimiter makes the result non-empty |
| Label.OptionalSegment | internal/provider/label.go:44-52 | an optional input contributes no segment when empty and exactly itself otherwise |
| Label.AttributeSegments | internal/provider/label.go:63-70 | the segments after the fixed four, also the ones Attributes joins. Their count is one per given qualifier or instance key plus one per domain piece. A given qualifier comes first and a given instance key last. An empty segment is always a domain piece |
| Label.IdSegments | internal/provider/label.go:35-52 | the segments begin with tenant, environment, resource type and stage; the rest are the attribute segments; any empty segment past the fixed four is a domain piece, never a skipped qualifier or instance key |
| Label.GenerateID | internal/provider/label.go:30-55 | the tenant is a prefix of the identifier, and a non-empty tenant gives a non-empty identifier |
| Label.GenerateIDStructure | internal/provider/label.go:37-54 | the identifier is the four fixed segments joined by the effective delimiter; when there are further segments, it is followed by the delimiter and those segments joined the same way |
| Label.DelimiterOverrideWins | internal/provider/label.go:31-33 | a per-call delimiter gives the same identifier as a configuration whose delimiter is that value; with no override, the configured delimiter joins |
| Label.GenerateIDResplits | internal/provider/label.go:54 | with a one-character delimiter that no segment contains, splitting the identifier at it gives the segments back |
| Label.GenerateIDResplitsOnDash | internal/provider/label.go:35-54 | with delimiter `-`, the identifier splits back into its segments whenever the caller's six values hold no `-` |
| Label.GenerateIDNoDoubledDelimiter | internal/provider/label.go:44-54 | with non-empty fixed segments and domain pieces, an omitted qualifier or instance key never doubles the delimiter, and the identifier neither starts nor ends with it |
| Label.EmptyDomainPiecesKept | internal/provider/label.go:20-24 | empty workspace pieces are kept: `"data--api"` has the domain `""`, `"api"` |
| Label.EmptyDomainPieceDoublesDelimiter | internal/provider/label.go:48-54 | a workspace with the domain `""`, `"api"` (such as `"data--api"`) does double the delimiter: `"dpl-ane2-sg-dev--api"` |
| Label.SplitTwo | internal/provider/label.go:20 | two `-`-free strings joined by one `-` split back into exactly those two |
| Label.DomainOfThreeTokens | internal/provider/label.go:19-25 | a workspace of three `-`-free tokens has the last two as its domain |
| Label.Attributes | internal/provider/label.go:72 | the Attributes value is empty exactly when the attribute segments are `[]` or `[""]` |
| Label.GenerateTags | internal/provider/label.go:58-90 | the tag keys are among the six names. Name, Tenant, Environment and Stage are always present, with Name equal to the identifier. Namespace is present iff the namespace is non-empty. Attributes is present iff its dash-joined value is non-empty. Each present key holds its value |
| Label.GenerateTagsSize | internal/provider/label.go:74-87 | the tag map has 4 entries, plus one for a namespace and one for non-empty attributes, so between 4 and 6 |
| Label.DelimiterAffectsOnlyName | internal/provider/label.go:59-87 | neither the per-call nor the configured delimiter changes any tag but Name |
| Label.AttributesAfterFirstDash | internal/provider/label.go:61-72 | Attributes is the workspace text after its first `-`. The qualifier and a `-` go in front, and a `-` and the instance key behind, each only when given |
| Label.AttributesWithoutDomain | internal/provider/label.go:61-72 | a workspace without `-` contributes nothing to Attributes |
| Label.AttributesPresence | internal/provider/label.go:85-87 | the Attributes tag is present exactly when a qualifier or instance key is given, or the workspace has text after its first `-` |
| Label.EmptySegmentsStillTagged | internal/provider/label.go:85-87 | a workspace ending in `--` gives two empty domain pieces; with no qualifier or instance key the tags still hold Attributes `"-"` |
| Label.NameExtendsAttributes | internal/provider/label.go:59-72 | with delimiter `-`, Name is the fixed segments, a `-`, then the Attributes value |
| Label.SingleSegmentNoAttributes | internal/provider/label.go:61-87 | a workspace without `-` and no qualifier or instance key gives no Attributes tag |
| Label.ReferenceDomain | internal/provider/label_test.go:12 | `"data-sales-api"` has the domain `sales`, `api` |
| Label.ReferenceIdentifier | internal/provider/label_test.go:360-367 | for a workspace with the domain `sales`, `api` (such as `"data-sales-api"`), role/emr/shared-pii-etl gives `"dpl-ane2-role-dev-emr-sales-api-shared-pii-etl"` |
| Label.ReferenceUnderscore | internal/provider/label_test.go:79-83 | the override `_` gives `"dpl_ane2_db_dev_refined_sales_api"` |
| Label.ReferenceUnderscoreAttributes | internal/provider/label.go:61-72 | for a workspace with the domain `sales`, `api`, the `_` override leaves Attributes `"refined-sales-api"`, joined with `-` |
| Label.ReferenceSingleSegment | internal/provider/label_test.go:110-113 | a workspace without `-` (such as `"vpc"`) gives `"dpl-ane2-sg-dev"` |
| Label.SalesApiDomain | internal/provider/datasource_label_test.go:27-33 | the workspace `"sales-api"` has the domain `api` alone |
| Label.SalesApiIdentifier | internal/provider/datasource_label_test.go:100-111 | for that domain, role/emr/shared-pii-etl gives `"dpl-ane2-role-dev-emr-api-shared-pii-etl"`, not the value the scenario expects |
| DataSourceLabel.ValueOrEmpty | internal/provider/datasource_label.go:130-139 | a null optional input reads as `""`; a known one reads as its value |
| DataSourceLabel.IncompleteConfiguration | internal/provider/datasource_label.go:120-124 | the summary is "Incomplete Provider Configuration". The detail starts with "Missing required provider values: ", then the first missing name; it is that name alone for one missing value. Its length allows for one ", " between each two names |
| DataSourceLabel.IncompleteConfigurationAppends | internal/provider/datasource_label.go:123 | each further missing name adds ", " and that name to the detail; with the one-name case this fixes the whole message as the names joined by ", " |
| DataSourceLabel.EmptyFieldsMembers | internal/provider/datasource_label.go:107-119 | a field is listed exactly when it is checked and empty |
| DataSourceLabel.EmptyFieldsInOrder | internal/provider/datasource_label.go:107-119 | the listed fields keep the order of the checks |
| DataSourceLabel.FieldNamesMembers | internal/provider/datasource_label.go:107-119 | a field's name is listed exactly when the field is |
| DataSourceLabel.MissingFieldNamesExact | internal/provider/datasource_label.go:107-119 | "tenant", "environment", "stage" and "workspace" are each listed iff that value is empty. "namespace" and "delimiter" are never listed. At most four names appear, in the order of the checks, and no name appears twice |
| DataSourceLabel.NothingMissingIff | internal/provider/datasource_label.go:107-120 | nothing is missing exactly when all four mandatory values are non-empty |
| DataSourceLabel.EmptyWorkspaceRefused | internal/provider/datasource_label.go:116-126 | with the other three values set and no workspace, only "workspace" is missing, and the error detail is "Missing required provider values: workspace" |
| DataSourceLabel.MissingFieldNamesInOrder | internal/provider/datasource_label.go:107-119 | the missing names are the tenant, environment, stage and workspace checks' contributions, concatenated in that order |
| DataSourceLabel.MissingFields | internal/provider/datasource_label.go:107-119 | the four appends collect exactly the missing names of the specification |
| DataSourceLabel.TagsWithoutName | internal/provider/datasource_label.go:153-158 | the copy has every tag key except Name, with the same values |
| DataSourceLabel.TagsWithoutNameRestores | internal/provider/datasource_label.go:153-158 | putting Name back into the copy gives the tags, and the copy is the tags minus Name |
| DataSourceLabel.Read | internal/provider/datasource_label.go:92-167 | a missing configuration gives only "Provider Not Configured". An incomplete one gives only "Incomplete Provider Configuration" with the missing names joined by ", ". State is recorded iff the configuration is present and complete; it holds the request with the identifier, the tags and the tags without Name, the null inputs read as `""`. Tags[Name] is the identifier |

## Left out

- Decoding the request (`req.Config.Get`) and its diagnostics are left out. The request arrives already decoded as a `LabelDataSourceModel`.
- Converting the Go maps to framework map values (`types.MapValueFrom`) is left out. That conversion cannot fail for string maps, so its error paths are not modelled.
- Writing the state (`resp.State.Set`) is left out: the state the read would record is returned in `ReadResponse`.
- Unknown (not yet computed) input values are left out. An input is either null or a known string.
- The data source's own field `d.config`, set by `Configure`, is passed to `Read` as a parameter.
- The provider's configuration (`internal/provider/provider.go`) is not part of this model. That covers environment-variable fallback and the default delimiter. A `LabelConfig` arrives fully resolved.
- The schema, metadata and plug-in wiring of the data source and the provider are left out: they have no logic.
- GoStrings.Split: only one-character separators are modelled, which is all the algorithm uses (`-`). Go's general `strings.Split` is not modelled.
- Label.GenerateIDNoDoubledDelimiter: stated for one-character delimiters only. The source accepts delimiters of any length.
- Go's distinction between a nil slice and an empty slice is not modelled. `ExtractDomain` returning nil and an empty domain are the same here, which the source's uses of the domain cannot tell apart.
- The order in which Go's `range` visits map keys is not modelled as a fixed order. The copy loop picks any remaining key, and its result does not depend on the order.
