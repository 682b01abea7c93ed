/**
 * The brand-context server's tool handlers over the store of contexts: the
 * guards of `create_brand_context`, `update_brand_context` and
 * `delete_brand_context`, and the checks `validate_content` makes on a piece
 * of content (avoided terms, paragraph length, word and sentence counts).
 * The database answers that are not lookups (whether a write went through)
 * are parameters.
 */
module BrandContextServer {
  import opened Common
  import opened Text
  import opened BrandContextModel

  /** The create tool's arguments once its input schema has accepted them. */
  datatype CreateInput = CreateInput(
    name: string,
    slug: string,
    description: Option<string>,
    voice: Voice,
    visual: Option<Visual>,
    contentGuidelines: Option<ContentGuidelines>,
    status: Option<string>)

  datatype ToolResponse =
    | ContextSaved(brandContext: BrandContext)
    | ContextDeleted(message: string)
    | ToolFailure(error: string)

  datatype ValidationResults = ValidationResults(
    passed: bool,
    issues: seq<string>,
    warnings: seq<string>,
    wordCount: nat,
    sentenceCount: int)

  datatype ValidateResponse =
    | Validated(brandName: string, results: ValidationResults)
    | ValidateFailure(error: string)

  const CreateSaveError: string := "Failed to save brand context to database"
  const UpdateSaveError: string := "Failed to save updated brand context to database"
  const DeleteError: string := "Failed to delete brand context from database"
  const ShortParagraphThreshold: nat := 30
  const LongParagraphThreshold: nat := 100

  function SlugExistsMessage(slug: string): string {
    "Brand context with slug \"" + slug + "\" already exists"
  }

  function NotFoundMessage(id: string): string {
    "Brand context with ID " + id + " not found"
  }

  function DeletedMessage(b: BrandContext): string {
    "Brand context " + b.name + " (" + b.slug + ") successfully deleted"
  }

  /** `{ id: uuidv4(), ...input }` */
  function CreateDataOf(input: CreateInput, uuid: string): CreateData {
    CreateData(uuid, input.name, input.slug, input.description, input.voice, input.visual,
               input.contentGuidelines, input.status)
  }

  /** The update tool's input schema has no `slug`, so one sent along is dropped before the merge. */
  function ToolUpdates(updates: Updates): Updates {
    updates.(slug := None)
  }

  /** The avoided terms of a context: none when the vocabulary or its avoided terms are absent. */
  function AvoidedTermsOf(b: BrandContext): Terms {
    if b.voice.vocabulary.Some? && b.voice.vocabulary.value.avoidedTerms.Some?
    then b.voice.vocabulary.value.avoidedTerms.value
    else []
  }

  /** `content.toLowerCase().includes(term.toLowerCase())` */
  predicate TermOccurs(content: string, term: string) {
    Contains(Lower(content), Lower(term))
  }

  function IssueMessage(term: string, reason: string): string {
    "Contains avoided term \"" + term + "\": " + reason
  }

  /** One issue per avoided term found in the content, in the terms' order. */
  function AvoidedIssues(content: string, terms: Terms): (issues: seq<string>)
    ensures |issues| <= |terms|
    ensures issues == [] <==> forall k :: 0 <= k < |terms| ==> !TermOccurs(content, terms[k].0)
    ensures forall m :: m in issues ==>
      exists k :: 0 <= k < |terms| && TermOccurs(content, terms[k].0) && m == IssueMessage(terms[k].0, terms[k].1)
  {
    if terms == [] then []
    else
      var n := |terms| - 1;
      var earlier := AvoidedIssues(content, terms[..n]);
      assert forall k :: 0 <= k < n ==> terms[..n][k] == terms[k];
      earlier + (if TermOccurs(content, terms[n].0) then [IssueMessage(terms[n].0, terms[n].1)] else [])
  }

  /** The word limit a paragraph style sets: 30 for `short`, 100 for `medium`, none otherwise. */
  function ParagraphThreshold(style: Option<string>): (t: Option<nat>)
    ensures t.Some? <==> style == Some("short") || style == Some("medium")
  {
    if style == Some("short") then Some(ShortParagraphThreshold)
    else if style == Some("medium") then Some(LongParagraphThreshold)
    else None
  }

  function WarningMessage(index: nat, words: nat): string {
    "Paragraph " + NatToString(index + 1) + " is longer than recommended (" + NatToString(words) + " words)"
  }

  /** One warning per paragraph over the limit, numbered from 1, in paragraph order. */
  function ParagraphWarnings(paragraphs: seq<string>, threshold: Option<nat>): (warnings: seq<string>)
    ensures |warnings| <= |paragraphs|
    ensures threshold.None? ==> warnings == []
    ensures warnings == [] <==> threshold.None? || forall i :: 0 <= i < |paragraphs| ==> WordCount(paragraphs[i]) <= threshold.value
  {
    if paragraphs == [] then []
    else
      var n := |paragraphs| - 1;
      var earlier := ParagraphWarnings(paragraphs[..n], threshold);
      assert forall i :: 0 <= i < n ==> paragraphs[..n][i] == paragraphs[i];
      earlier + (if threshold.Some? && WordCount(paragraphs[n]) > threshold.value
                 then [WarningMessage(n, WordCount(paragraphs[n]))] else [])
  }

  /** Matching ignores case on both sides: lower-casing the content or the term first changes nothing. */
  lemma TermOccursIgnoresCase(content: string, term: string)
    ensures TermOccurs(Lower(content), term) == TermOccurs(content, term)
    ensures TermOccurs(content, Lower(term)) == TermOccurs(content, term)
    ensures TermOccurs(content, term) <==> exists i :: OccursAt(Lower(content), Lower(term), i)
  {
    LowerIdempotent(content);
    LowerIdempotent(term);
    ContainsIffOccurs(Lower(content), Lower(term));
  }

  /** Content on one line is one paragraph, so it draws at most one warning, numbered 1. */
  lemma SingleParagraphWarnings(content: string, threshold: Option<nat>)
    requires '\n' !in content
    ensures ParagraphWarnings(Paragraphs(content), threshold) ==
      if threshold.Some? && WordCount(content) > threshold.value then [WarningMessage(0, WordCount(content))] else []
  {
    NoNewlineOneParagraph(content);
    assert [content][..0] == [];
  }

  /** The avoided-term loop: an issue per term found, and `passed` cleared by the first one. */
  method CheckAvoidedTerms(content: string, terms: Terms) returns (issues: seq<string>, passed: bool)
    ensures issues == AvoidedIssues(content, terms)
    ensures passed <==> forall k :: 0 <= k < |terms| ==> !TermOccurs(content, terms[k].0)
  {
    issues := [];
    passed := true;
    var k := 0;
    while k < |terms|
      invariant 0 <= k <= |terms|
      invariant issues == AvoidedIssues(content, terms[..k])
      invariant passed == (issues == [])
    {
      assert terms[..k + 1][..k] == terms[..k];
      if Contains(Lower(content), Lower(terms[k].0)) {
        issues := issues + [IssueMessage(terms[k].0, terms[k].1)];
        passed := false;
      }
      k := k + 1;
    }
    assert terms[..k] == terms;
  }

  /** The paragraph loop, run only when a paragraph style is set: a warning per paragraph over the style's limit. */
  method CheckParagraphs(content: string, style: Option<string>) returns (warnings: seq<string>)
    ensures warnings == ParagraphWarnings(Paragraphs(content), ParagraphThreshold(style))
  {
    warnings := [];
    if style.Some? && style.value != "" {
      var paragraphs := Paragraphs(content);
      var i := 0;
      while i < |paragraphs|
        invariant 0 <= i <= |paragraphs|
        invariant warnings == ParagraphWarnings(paragraphs[..i], ParagraphThreshold(style))
      {
        assert paragraphs[..i + 1][..i] == paragraphs[..i];
        var words := WordCount(paragraphs[i]);
        if style.value == "short" && words > ShortParagraphThreshold {
          warnings := warnings + [WarningMessage(i, words)];
        } else if style.value == "medium" && words > LongParagraphThreshold {
          warnings := warnings + [WarningMessage(i, words)];
        }
        i := i + 1;
      }
      assert paragraphs[..i] == paragraphs;
    }
  }

  class BrandContextStore {
    var contexts: map<string, BrandContext>

    /** Every context is stored under its own id, and no two contexts share a slug. */
    ghost predicate Valid()
      reads this
    {
      && (forall id :: id in contexts ==> contexts[id].id == id)
      && (forall i, j :: i in contexts && j in contexts && contexts[i].slug == contexts[j].slug ==> i == j)
    }

    constructor ()
      ensures Valid() && contexts == map[]
    {
      contexts := map[];
    }

    /** `getBySlug(slug)` finds a context. */
    predicate SlugTaken(slug: string)
      reads this
    {
      exists id :: id in contexts && contexts[id].slug == slug
    }

    /**
     * `create_brand_context`: a slug already in use is refused; otherwise the
     * record is built under a fresh id and stored if the write goes through.
     */
    method CreateBrandContextTool(input: CreateInput, uuid: string, now: string, checks: FormatChecks, saved: bool)
      returns (resp: ToolResponse)
      requires Valid()
      requires uuid !in contexts
      modifies this
      ensures Valid()
      ensures old(SlugTaken(input.slug)) ==> resp == ToolFailure(SlugExistsMessage(input.slug)) && contexts == old(contexts)
      ensures !old(SlugTaken(input.slug)) ==>
        var created := CreateBrandContext(CreateDataOf(input, uuid), now, checks);
        && (created.Failure? ==> resp == ToolFailure(CreateError) && contexts == old(contexts))
        && (created.Success? && !saved ==> resp == ToolFailure(CreateSaveError) && contexts == old(contexts))
        && (created.Success? && saved ==> resp == ContextSaved(created.value) && contexts == old(contexts)[uuid := created.value])
    {
      if SlugTaken(input.slug) {
        return ToolFailure(SlugExistsMessage(input.slug));
      }
      var created := CreateBrandContext(CreateDataOf(input, uuid), now, checks);
      if created.Failure? {
        return ToolFailure(created.error);
      }
      if !saved {
        return ToolFailure(CreateSaveError);
      }
      contexts := contexts[uuid := created.value];
      resp := ContextSaved(created.value);
    }

    /** `update_brand_context`: an unknown id is refused without writing; otherwise the merged record is stored. */
    method UpdateBrandContextTool(id: string, updates: Updates, now: string, checks: FormatChecks, saved: bool)
      returns (resp: ToolResponse)
      requires Valid()
      modifies this
      ensures Valid()
      ensures id !in old(contexts) ==> resp == ToolFailure(NotFoundMessage(id)) && contexts == old(contexts)
      ensures id in old(contexts) ==>
        var updated := UpdateBrandContext(old(contexts)[id], ToolUpdates(updates), now, checks);
        && (updated.Failure? ==> resp == ToolFailure(UpdateError) && contexts == old(contexts))
        && (updated.Success? && !saved ==> resp == ToolFailure(UpdateSaveError) && contexts == old(contexts))
        && (updated.Success? && saved ==> resp == ContextSaved(updated.value) && contexts == old(contexts)[id := updated.value])
    {
      if id !in contexts {
        return ToolFailure(NotFoundMessage(id));
      }
      var existing := contexts[id];
      var updated := UpdateBrandContext(existing, ToolUpdates(updates), now, checks);
      if updated.Failure? {
        return ToolFailure(updated.error);
      }
      if !saved {
        return ToolFailure(UpdateSaveError);
      }
      UpdateIsShallowMerge(existing, ToolUpdates(updates), now, checks);
      contexts := contexts[id := updated.value];
      resp := ContextSaved(updated.value);
    }

    /** `delete_brand_context`: an unknown id is refused; otherwise the context goes if the delete goes through. */
    method DeleteBrandContextTool(id: string, deleted: bool) returns (resp: ToolResponse)
      requires Valid()
      modifies this
      ensures Valid()
      ensures id !in old(contexts) ==> resp == ToolFailure(NotFoundMessage(id)) && contexts == old(contexts)
      ensures id in old(contexts) && !deleted ==> resp == ToolFailure(DeleteError) && contexts == old(contexts)
      ensures id in old(contexts) && deleted ==>
        resp == ContextDeleted(DeletedMessage(old(contexts)[id])) && contexts == old(contexts) - {id}
    {
      if id !in contexts {
        return ToolFailure(NotFoundMessage(id));
      }
      var existing := contexts[id];
      if !deleted {
        return ToolFailure(DeleteError);
      }
      contexts := contexts - {id};
      resp := ContextDeleted(DeletedMessage(existing));
    }

    /**
     * `validate_content`: every avoided term found in the content, ignoring
     * case, is an issue and fails the check; paragraphs over the style's word
     * limit draw warnings, which never fail it.
     */
    method ValidateContent(brandId: string, content: string) returns (resp: ValidateResponse)
      ensures brandId !in contexts ==> resp == ValidateFailure(NotFoundMessage(brandId))
      ensures brandId in contexts ==>
        var b := contexts[brandId];
        && resp.Validated?
        && resp.brandName == b.name
        && resp.results.issues == AvoidedIssues(content, AvoidedTermsOf(b))
        && (resp.results.passed <==> forall k :: 0 <= k < |AvoidedTermsOf(b)| ==> !TermOccurs(content, AvoidedTermsOf(b)[k].0))
        && resp.results.warnings == ParagraphWarnings(Paragraphs(content),
             ParagraphThreshold(if b.contentGuidelines.Some? then b.contentGuidelines.value.paragraphStyle else None))
        && resp.results.wordCount == WordCount(content)
        && resp.results.sentenceCount == SentenceCount(content)
    {
      if brandId !in contexts {
        return ValidateFailure(NotFoundMessage(brandId));
      }
      var b := contexts[brandId];

      var issues, passed := CheckAvoidedTerms(content, AvoidedTermsOf(b));
      var warnings := CheckParagraphs(content, if b.contentGuidelines.Some? then b.contentGuidelines.value.paragraphStyle else None);
      resp := Validated(b.name, ValidationResults(passed, issues, warnings, WordCount(content), SentenceCount(content)));
    }
  }
}
