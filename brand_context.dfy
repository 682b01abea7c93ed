/**
 * The brand-context record: its schema, creation with versioned metadata,
 * and the shallow-merge update that bumps the version. A record is checked
 * against the schema after it is assembled; the record returned is the
 * assembled one, not the parse output, so keys the schema does not know
 * (a top-level `status`) survive.
 */
module BrandContextModel {
  import opened Common

  /** An object of string values (`z.record(z.string())`), keys in enumeration order. */
  type Terms = seq<(string, string)>

  datatype Vocabulary = Vocabulary(preferredTerms: Option<Terms>, avoidedTerms: Option<Terms>)

  /**
   * The voice object. The schema requires every field but `vocabulary`; the
   * update input lets each of them be left out, so they are optional here and
   * the schema check decides.
   */
  datatype Voice = Voice(
    tone: Option<string>,
    personality: Option<seq<string>>,
    audience: Option<seq<string>>,
    style: Option<seq<string>>,
    vocabulary: Option<Vocabulary>)

  datatype Colors = Colors(
    primary: Option<string>,
    secondary: Option<string>,
    accent: Option<string>,
    text: Option<string>,
    background: Option<string>)

  datatype Typography = Typography(primaryFont: Option<string>, secondaryFont: Option<string>, headingFont: Option<string>)

  datatype Logo = Logo(primary: Option<string>, secondary: Option<string>, favicon: Option<string>)

  datatype Visual = Visual(colors: Option<Colors>, typography: Option<Typography>, logo: Option<Logo>)

  datatype ContentGuidelines = ContentGuidelines(
    maxHeadingLength: Option<int>,
    paragraphStyle: Option<string>,
    preferredFormats: Option<seq<string>>,
    contentTypes: Option<seq<string>>,
    tonalRules: Option<seq<string>>)

  datatype Metadata = Metadata(createdAt: string, updatedAt: string, version: int, status: string)

  /** A stored brand context; `status` is the extra top-level key a creation or update input may carry. */
  datatype BrandContext = BrandContext(
    id: string,
    name: string,
    slug: string,
    description: Option<string>,
    voice: Voice,
    visual: Option<Visual>,
    contentGuidelines: Option<ContentGuidelines>,
    metadata: Metadata,
    status: Option<string>)

  /** What `createBrandContext` is given: everything but the metadata, and an optional status. */
  datatype CreateData = CreateData(
    id: string,
    name: string,
    slug: string,
    description: Option<string>,
    voice: Voice,
    visual: Option<Visual>,
    contentGuidelines: Option<ContentGuidelines>,
    status: Option<string>)

  /** What `updateBrandContext` is given: any top-level field but `id` and `metadata`. */
  datatype Updates = Updates(
    name: Option<string>,
    slug: Option<string>,
    description: Option<string>,
    voice: Option<Voice>,
    visual: Option<Visual>,
    contentGuidelines: Option<ContentGuidelines>,
    status: Option<string>)

  /** The string formats the schema delegates to its validation library: uuid, url and ISO datetime. */
  datatype FormatChecks = FormatChecks(isUuid: string -> bool, isUrl: string -> bool, isDatetime: string -> bool)

  const Tones: seq<string> := ["formal", "casual", "friendly", "professional", "playful", "serious"]
  const ParagraphStyles: seq<string> := ["short", "medium", "long"]
  const Statuses: seq<string> := ["active", "draft", "archived"]
  const DefaultStatus: string := "draft"
  const CreateError: string := "Failed to create brand context: validation error"
  const UpdateError: string := "Failed to update brand context: validation error"

  /** `[a-z0-9-]` */
  predicate IsSlugChar(c: char) {
    ('a' <= c <= 'z') || ('0' <= c <= '9') || c == '-'
  }

  /** `^[a-z0-9-]+$` */
  predicate IsSlug(s: string) {
    |s| >= 1 && forall i :: 0 <= i < |s| ==> IsSlugChar(s[i])
  }

  predicate IsHexDigit(c: char) {
    ('0' <= c <= '9') || ('A' <= c <= 'F') || ('a' <= c <= 'f')
  }

  /** `^#[0-9A-Fa-f]{6}$` */
  predicate IsHexColor(s: string) {
    |s| == 7 && s[0] == '#' && forall i :: 1 <= i < 7 ==> IsHexDigit(s[i])
  }

  predicate OptionalHex(c: Option<string>) {
    c.None? || IsHexColor(c.value)
  }

  predicate OptionalUrl(u: Option<string>, checks: FormatChecks) {
    u.None? || checks.isUrl(u.value)
  }

  predicate ColorsValid(c: Colors) {
    c.primary.Some? && IsHexColor(c.primary.value)
    && OptionalHex(c.secondary) && OptionalHex(c.accent) && OptionalHex(c.text) && OptionalHex(c.background)
  }

  predicate VisualValid(v: Visual, checks: FormatChecks) {
    && v.colors.Some? && ColorsValid(v.colors.value)
    && (v.typography.Some? ==> v.typography.value.primaryFont.Some?)
    && (v.logo.Some? ==> v.logo.value.primary.Some? && checks.isUrl(v.logo.value.primary.value)
                         && OptionalUrl(v.logo.value.secondary, checks) && OptionalUrl(v.logo.value.favicon, checks))
  }

  predicate VoiceValid(v: Voice) {
    && v.tone.Some? && v.tone.value in Tones
    && v.personality.Some? && v.audience.Some? && v.style.Some?
  }

  predicate GuidelinesValid(g: ContentGuidelines) {
    && (g.maxHeadingLength.Some? ==> g.maxHeadingLength.value > 0)
    && (g.paragraphStyle.Some? ==> g.paragraphStyle.value in ParagraphStyles)
  }

  predicate MetadataValid(m: Metadata, checks: FormatChecks) {
    checks.isDatetime(m.createdAt) && checks.isDatetime(m.updatedAt) && m.version > 0 && m.status in Statuses
  }

  /** `BrandContextSchema.parse` succeeds. Keys outside the schema are not looked at. */
  predicate SchemaValid(b: BrandContext, checks: FormatChecks) {
    && checks.isUuid(b.id)
    && |b.name| >= 1
    && IsSlug(b.slug)
    && VoiceValid(b.voice)
    && (b.visual.Some? ==> VisualValid(b.visual.value, checks))
    && (b.contentGuidelines.Some? ==> GuidelinesValid(b.contentGuidelines.value))
    && MetadataValid(b.metadata, checks)
  }

  /** `data.status || 'draft'`: an absent or empty status gives the default. */
  function InitialStatus(status: Option<string>): (s: string)
    ensures status.Some? && status.value != "" ==> s == status.value
    ensures status.None? || status.value == "" ==> s == DefaultStatus
  {
    if status.Some? && status.value != "" then status.value else DefaultStatus
  }

  /** `{ ...data, metadata: { createdAt: now, updatedAt: now, version: 1, status } }` */
  function Assemble(data: CreateData, now: string): BrandContext {
    BrandContext(data.id, data.name, data.slug, data.description, data.voice, data.visual,
                 data.contentGuidelines, Metadata(now, now, 1, InitialStatus(data.status)), data.status)
  }

  /** `createBrandContext(data)` at time `now`. */
  function CreateBrandContext(data: CreateData, now: string, checks: FormatChecks): (r: Result<BrandContext, string>)
    ensures r.Failure? ==> r.error == CreateError
    ensures r.Success? ==> SchemaValid(r.value, checks)
    ensures r.Success? ==>
      && r.value.metadata.createdAt == now && r.value.metadata.updatedAt == now
      && r.value.metadata.version == 1
      && r.value.metadata.status == InitialStatus(data.status)
      && r.value.status == data.status
      && r.value.id == data.id && r.value.name == data.name && r.value.slug == data.slug
      && r.value.description == data.description && r.value.voice == data.voice
      && r.value.visual == data.visual && r.value.contentGuidelines == data.contentGuidelines
  {
    var b := Assemble(data, now);
    if SchemaValid(b, checks) then Success(b) else Failure(CreateError)
  }

  /** The creation input is acceptable: every constraint of the schema, read off the input fields. */
  predicate CreateInputValid(data: CreateData, now: string, checks: FormatChecks) {
    && checks.isUuid(data.id)
    && data.name != ""
    && IsSlug(data.slug)
    && VoiceValid(data.voice)
    && (data.visual.Some? ==> VisualValid(data.visual.value, checks))
    && (data.contentGuidelines.Some? ==> GuidelinesValid(data.contentGuidelines.value))
    && checks.isDatetime(now)
    && InitialStatus(data.status) in Statuses
  }

  /** Creation fails, with the validation error, exactly when the input breaks the schema. */
  lemma CreateSucceedsIff(data: CreateData, now: string, checks: FormatChecks)
    ensures CreateBrandContext(data, now, checks).Success? <==> CreateInputValid(data, now, checks)
    ensures !CreateInputValid(data, now, checks) ==> CreateBrandContext(data, now, checks) == Failure(CreateError)
  {
    if CreateInputValid(data, now, checks) {
      assert |data.name| >= 1;
      assert SchemaValid(Assemble(data, now), checks);
    }
  }

  /** The schema's examples of a rejected input: an empty name, a slug outside `[a-z0-9-]`, a malformed primary colour. */
  lemma CreateRejects(data: CreateData, now: string, checks: FormatChecks)
    requires || data.name == ""
             || (exists i :: 0 <= i < |data.slug| && !IsSlugChar(data.slug[i]))
             || (data.visual.Some? && data.visual.value.colors.Some? && data.visual.value.colors.value.primary.Some?
                 && |data.visual.value.colors.value.primary.value| != 7)
    ensures CreateBrandContext(data, now, checks) == Failure(CreateError)
  {
    CreateSucceedsIff(data, now, checks);
  }

  /** An omitted status is a draft; a given one is kept both in the metadata and as a top-level key. */
  lemma CreateStatus(data: CreateData, now: string, checks: FormatChecks)
    requires CreateInputValid(data, now, checks)
    ensures data.status.None? ==> CreateBrandContext(data, now, checks).value.metadata.status == "draft"
    ensures data.status.Some? ==> CreateBrandContext(data, now, checks).value.status == data.status
  {
    CreateSucceedsIff(data, now, checks);
  }

  /** `{ ...existing, ...updates }`: every field the updates carry replaces the existing one as a whole. */
  function Merge(existing: BrandContext, updates: Updates): BrandContext {
    existing.(
      name := updates.name.GetOr(existing.name),
      slug := updates.slug.GetOr(existing.slug),
      description := if updates.description.Some? then updates.description else existing.description,
      voice := updates.voice.GetOr(existing.voice),
      visual := if updates.visual.Some? then updates.visual else existing.visual,
      contentGuidelines := if updates.contentGuidelines.Some? then updates.contentGuidelines else existing.contentGuidelines,
      status := if updates.status.Some? then updates.status else existing.status)
  }

  /** The merged record with its metadata bumped: `updatedAt` is `now` and the version grows by one. */
  function Updated(existing: BrandContext, updates: Updates, now: string): BrandContext {
    Merge(existing, updates).(metadata := existing.metadata.(updatedAt := now, version := existing.metadata.version + 1))
  }

  /** `updateBrandContext(existing, updates)` at time `now`. */
  function UpdateBrandContext(existing: BrandContext, updates: Updates, now: string, checks: FormatChecks): (r: Result<BrandContext, string>)
    ensures r.Success? <==> SchemaValid(Updated(existing, updates, now), checks)
    ensures r.Success? ==> r.value == Updated(existing, updates, now)
    ensures r.Failure? ==> r.error == UpdateError
    ensures r.Success? ==> SchemaValid(r.value, checks)
    ensures r.Success? ==>
      && r.value.metadata.version == existing.metadata.version + 1
      && r.value.metadata.updatedAt == now
      && r.value.metadata.createdAt == existing.metadata.createdAt
      && r.value.metadata.status == existing.metadata.status
      && r.value.id == existing.id
  {
    var b := Updated(existing, updates, now);
    if SchemaValid(b, checks) then Success(b) else Failure(UpdateError)
  }

  /** A field the updates leave out keeps its old value; a field they carry is taken as given. */
  lemma UpdateIsShallowMerge(existing: BrandContext, updates: Updates, now: string, checks: FormatChecks)
    requires UpdateBrandContext(existing, updates, now, checks).Success?
    ensures var r := UpdateBrandContext(existing, updates, now, checks).value;
      && (updates.name.None? ==> r.name == existing.name)
      && (updates.name.Some? ==> r.name == updates.name.value)
      && (updates.slug.None? ==> r.slug == existing.slug)
      && (updates.slug.Some? ==> r.slug == updates.slug.value)
      && (updates.description.None? ==> r.description == existing.description)
      && (updates.description.Some? ==> r.description == updates.description)
      && (updates.voice.None? ==> r.voice == existing.voice)
      && (updates.voice.Some? ==> r.voice == updates.voice.value)
      && (updates.visual.None? ==> r.visual == existing.visual)
      && (updates.visual.Some? ==> r.visual == updates.visual)
      && (updates.contentGuidelines.None? ==> r.contentGuidelines == existing.contentGuidelines)
      && (updates.contentGuidelines.Some? ==> r.contentGuidelines == updates.contentGuidelines)
  {
  }

  /**
   * Because `voice` is replaced as a whole, an update carrying only some of
   * the voice fields leaves the record without the others and is rejected.
   */
  lemma PartialVoiceUpdateRejected(existing: BrandContext, updates: Updates, now: string, checks: FormatChecks)
    requires updates.voice.Some? && (updates.voice.value.personality.None? || updates.voice.value.tone.None?)
    ensures UpdateBrandContext(existing, updates, now, checks) == Failure(UpdateError)
  {
  }

  /** A status in the updates lands as a top-level key; the metadata status stays as it was. */
  lemma UpdateStatusStaysTopLevel(existing: BrandContext, updates: Updates, now: string, checks: FormatChecks)
    requires updates.status.Some?
    requires UpdateBrandContext(existing, updates, now, checks).Success?
    ensures UpdateBrandContext(existing, updates, now, checks).value.status == updates.status
    ensures UpdateBrandContext(existing, updates, now, checks).value.metadata.status == existing.metadata.status
  {
  }

  /** Applies a run of updates in order, stopping at the first one that fails. */
  function ApplyUpdates(b: BrandContext, updates: seq<Updates>, nows: seq<string>, checks: FormatChecks): Result<BrandContext, string>
    requires |nows| == |updates|
    decreases |updates|
  {
    if updates == [] then Success(b)
    else match UpdateBrandContext(b, updates[0], nows[0], checks)
      case Failure(e) => Failure(e)
      case Success(b1) => ApplyUpdates(b1, updates[1..], nows[1..], checks)
  }

  /**
   * Along any chain of successful updates the version grows by one per
   * update, and the identity and creation time are kept.
   */
  lemma {:induction false} ApplyUpdatesVersion(b: BrandContext, updates: seq<Updates>, nows: seq<string>, checks: FormatChecks)
    requires |nows| == |updates|
    requires ApplyUpdates(b, updates, nows, checks).Success?
    ensures ApplyUpdates(b, updates, nows, checks).value.metadata.version == b.metadata.version + |updates|
    ensures ApplyUpdates(b, updates, nows, checks).value.metadata.createdAt == b.metadata.createdAt
    ensures ApplyUpdates(b, updates, nows, checks).value.id == b.id
    ensures updates != [] ==> SchemaValid(ApplyUpdates(b, updates, nows, checks).value, checks)
    decreases |updates|
  {
    if updates != [] {
      var b1 := UpdateBrandContext(b, updates[0], nows[0], checks).value;
      ApplyUpdatesVersion(b1, updates[1..], nows[1..], checks);
    }
  }

  /** A context created and then updated `n` times has version `1 + n`, a positive number. */
  lemma CreateThenUpdatesVersion(created: BrandContext, data: CreateData, now: string, updates: seq<Updates>, nows: seq<string>, checks: FormatChecks)
    requires |nows| == |updates|
    requires CreateBrandContext(data, now, checks) == Success(created)
    requires ApplyUpdates(created, updates, nows, checks).Success?
    ensures ApplyUpdates(created, updates, nows, checks).value.metadata.version == 1 + |updates|
    ensures SchemaValid(ApplyUpdates(created, updates, nows, checks).value, checks)
  {
    ApplyUpdatesVersion(created, updates, nows, checks);
  }
}
