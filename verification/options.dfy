/**
 * The configuration of the overlay and the defaults-then-overrides merge that `init`
 * performs with `{ ...defaultOptions, ...options }` (src/index.js:3-9, 69).
 */
module Options {
  import opened Wrappers

  /** A complete configuration snapshot, as held after the merge. */
  datatype Options = Options(
    position: string,
    color: string,
    backgroundColor: string,
    fontSize: string,
    debounceDelay: int
  )

  /** The options object a caller passes to `init`: an absent field is None. */
  datatype Overrides = Overrides(
    position: Option<string>,
    color: Option<string>,
    backgroundColor: Option<string>,
    fontSize: Option<string>,
    debounceDelay: Option<int>
  )

  /** The module's `defaultOptions`. */
  const Defaults: Options := Options("top-left", "#ff3333", "rgba(0, 0, 0, 0.7)", "12px", 100)

  /** `init()` with no argument, or with `{}`. */
  const NoOverrides: Overrides := Overrides(None, None, None, None, None)

  /** An options object that supplies every field of `o`. */
  function Supplied(o: Options): (r: Overrides)
    ensures r.position.Some? && r.color.Some? && r.backgroundColor.Some?
    ensures r.fontSize.Some? && r.debounceDelay.Some?
  {
    Overrides(Some(o.position), Some(o.color), Some(o.backgroundColor), Some(o.fontSize),
              Some(o.debounceDelay))
  }

  /** Object spread: a field the caller supplies replaces the default one. */
  function Merge(o: Overrides): (r: Options)
    ensures o.position.Some? ==> r.position == o.position.value
    ensures o.position.None? ==> r.position == "top-left"
    ensures o.color.Some? ==> r.color == o.color.value
    ensures o.color.None? ==> r.color == "#ff3333"
    ensures o.backgroundColor.Some? ==> r.backgroundColor == o.backgroundColor.value
    ensures o.backgroundColor.None? ==> r.backgroundColor == "rgba(0, 0, 0, 0.7)"
    ensures o.fontSize.Some? ==> r.fontSize == o.fontSize.value
    ensures o.fontSize.None? ==> r.fontSize == "12px"
    ensures o.debounceDelay.Some? ==> r.debounceDelay == o.debounceDelay.value
    ensures o.debounceDelay.None? ==> r.debounceDelay == 100
  {
    Options(
      o.position.GetOr(Defaults.position),
      o.color.GetOr(Defaults.color),
      o.backgroundColor.GetOr(Defaults.backgroundColor),
      o.fontSize.GetOr(Defaults.fontSize),
      o.debounceDelay.GetOr(Defaults.debounceDelay)
    )
  }

  /** With nothing supplied, the merge is exactly the defaults. */
  lemma MergeNoOverridesIsDefaults()
    ensures Merge(NoOverrides) == Defaults
  {
  }

  /** A caller that supplies every field gets its own configuration back. */
  lemma MergeSuppliedRoundTrip(o: Options)
    ensures Merge(Supplied(o)) == o
  {
  }

  /** Merging again with the merged result as the overrides changes nothing. */
  lemma MergeIdempotent(o: Overrides)
    ensures Merge(Supplied(Merge(o))) == Merge(o)
  {
    MergeSuppliedRoundTrip(Merge(o));
  }
}
