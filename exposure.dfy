/**
 * The exposure tree the preloader walks, as Grape::Entity builds it. Only the
 * parts the walk reads are kept: the key, the `preload` setting and whether
 * the exposure nests further exposures or represents a linked entity.
 */
module Exposures {
  import opened RubyValues

  /**
   * The `@key` of an exposure: a Symbol, or a callable that computes the key
   * at render time (a "dynamic" key, anything answering to `call`).
   */
  datatype Key = Static(name: Sym) | Dynamic

  /**
   * The exposure class. `Nesting` is Grape's NestingExposure with its
   * `nested_exposures`; `Represent` is a RepresentExposure whose
   * `using_class.root_exposures` are inlined as a finite subtree.
   */
  datatype Kind =
    | Plain
    | Nesting(nestedExposures: seq<Exposure>)
    | Represent(rootExposures: seq<Exposure>)

  /**
   * One exposure. `preload` is the association name read by the walk: `None`
   * when the `:preload` option was absent or falsy, `Some(p)` for a Symbol `p`.
   */
  datatype Exposure = Exposure(attribute: Sym, key: Key, preload: Option<Sym>, kind: Kind)

  /**
   * The two host-library behaviours the walk calls and cannot see into:
   * `Exposure#should_return_key?(options)` and `Options#for_nesting(key)`,
   * over an options type `O` the walk treats as opaque.
   */
  datatype Host<!O> = Host(shouldReturnKey: (Exposure, O) -> bool, forNesting: (O, Sym) -> O)
}
