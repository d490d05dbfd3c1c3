/** The site-content store (contexts/SiteContext.tsx): the landing-page config,
    updated by shallow merge and persisted to one local-storage slot. */
module Site {
  import opened Wrappers
  import opened Types

  /** `Partial<SiteConfig>`: a field is None when the key is not supplied. */
  datatype PartialConfig = PartialConfig(
    mainTitle: Option<string>,
    mainSubtitle: Option<string>,
    mainDescription: Option<string>,
    noticeTitle: Option<string>,
    noticeContent: Option<string>,
    showNotice: Option<bool>)

  const EmptyPatch := PartialConfig(None, None, None, None, None, None)

  /** The patch that supplies every field, as the admin form's save does. */
  function FullPatch(c: SiteConfig): PartialConfig {
    PartialConfig(Some(c.mainTitle), Some(c.mainSubtitle), Some(c.mainDescription),
                  Some(c.noticeTitle), Some(c.noticeContent), Some(c.showNotice))
  }

  /** A supplied field takes the patch's value; an absent one keeps the old value. */
  predicate FieldMerged<T(==)>(before: T, patch: Option<T>, after: T) {
    match patch
    case Some(v) => after == v
    case None => after == before
  }

  /** `{...prev, ...newConfig}`. */
  function Merge(prev: SiteConfig, patch: PartialConfig): (r: SiteConfig)
    ensures FieldMerged(prev.mainTitle, patch.mainTitle, r.mainTitle)
    ensures FieldMerged(prev.mainSubtitle, patch.mainSubtitle, r.mainSubtitle)
    ensures FieldMerged(prev.mainDescription, patch.mainDescription, r.mainDescription)
    ensures FieldMerged(prev.noticeTitle, patch.noticeTitle, r.noticeTitle)
    ensures FieldMerged(prev.noticeContent, patch.noticeContent, r.noticeContent)
    ensures FieldMerged(prev.showNotice, patch.showNotice, r.showNotice)
  {
    SiteConfig(
      patch.mainTitle.GetOr(prev.mainTitle),
      patch.mainSubtitle.GetOr(prev.mainSubtitle),
      patch.mainDescription.GetOr(prev.mainDescription),
      patch.noticeTitle.GetOr(prev.noticeTitle),
      patch.noticeContent.GetOr(prev.noticeContent),
      patch.showNotice.GetOr(prev.showNotice))
  }

  function Prefer<T>(first: Option<T>, second: Option<T>): Option<T> {
    if second.Some? then second else first
  }

  /** `{...p, ...q}` on two patches: `q` wins where both supply a field. */
  function Combine(p: PartialConfig, q: PartialConfig): PartialConfig {
    PartialConfig(
      Prefer(p.mainTitle, q.mainTitle),
      Prefer(p.mainSubtitle, q.mainSubtitle),
      Prefer(p.mainDescription, q.mainDescription),
      Prefer(p.noticeTitle, q.noticeTitle),
      Prefer(p.noticeContent, q.noticeContent),
      Prefer(p.showNotice, q.showNotice))
  }

  lemma MergeEmptyIsIdentity(c: SiteConfig)
    ensures Merge(c, EmptyPatch) == c
  {
  }

  lemma MergeIdempotent(c: SiteConfig, p: PartialConfig)
    ensures Merge(Merge(c, p), p) == Merge(c, p)
  {
  }

  /** Two updates in a row are one update with the combined patch. */
  lemma MergeTwice(c: SiteConfig, p: PartialConfig, q: PartialConfig)
    ensures Merge(Merge(c, p), q) == Merge(c, Combine(p, q))
  {
  }

  /** Supplying every field replaces the whole config. */
  lemma MergeFull(c: SiteConfig, d: SiteConfig)
    ensures Merge(c, FullPatch(d)) == d
  {
  }

  class SiteStore {
    var config: SiteConfig
    /** The `siteConfig` local-storage slot; None when the key is absent or empty. */
    var storage: Option<SiteConfig>

    ghost predicate Persisted()
      reads this
    {
      storage == Some(config)
    }

    /** Initial load: the stored config when there is one, else the built-in
        default; the persist effect then writes it back. */
    constructor (saved: Option<SiteConfig>, initialConfig: SiteConfig)
      ensures saved.Some? ==> config == saved.value
      ensures saved.None? ==> config == initialConfig
      ensures Persisted()
    {
      config := if saved.Some? then saved.value else initialConfig;
      storage := Some(config);
    }

    method UpdateConfig(patch: PartialConfig)
      requires Persisted()
      modifies this
      ensures config == Merge(old(config), patch)
      ensures Persisted()
    {
      config := Merge(config, patch);
      storage := Some(config);
    }
  }

  /** An update followed by a page reload: the reloaded store reads back the
      merged config from storage, whatever the built-in default is. */
  method UpdateThenReload(saved: Option<SiteConfig>, initialConfig: SiteConfig, patch: PartialConfig)
    returns (reloaded: SiteConfig)
    ensures reloaded == Merge(saved.GetOr(initialConfig), patch)
  {
    var store := new SiteStore(saved, initialConfig);
    store.UpdateConfig(patch);
    var again := new SiteStore(store.storage, initialConfig);
    reloaded := again.config;
  }
}
