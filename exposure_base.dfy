/**
 * The preloader's extension of Grape::Entity::Exposure::Base: at construction
 * the exposure reads its `:preload` option, refuses anything that is set but
 * is not a Symbol, and only then lets the host initializer (`super`) run.
 */
module PreloadOption {
  import opened RubyValues

  /** The option name read at construction, `:preload`. */
  const PreloadKey: Sym := "preload"

  const PreloadMessage: string := "The :preload option must be a Symbol."

  datatype Error = ArgumentError(message: string)

  /**
   * The check on the stored value: an unset (`nil` or `false`) value or a
   * Symbol is accepted; every other value raises ArgumentError.
   */
  function CheckPreload(v: RubyValue): (r: Option<Error>)
    ensures r.None? <==> (v == Nil || v == Bool(false) || v.Symbol?)
    ensures r.Some? ==> r.value == ArgumentError(PreloadMessage)
  {
    if Truthy(v) && !v.Symbol? then Some(ArgumentError(PreloadMessage)) else None
  }

  /**
   * What `if exposure.preload` then reads from an accepted value: no
   * association for a falsy value, the Symbol's name otherwise.
   */
  function PreloadName(v: RubyValue): (r: Option<Sym>)
    requires CheckPreload(v).None?
    ensures r.Some? <==> Truthy(v)
    ensures r.Some? ==> v == Symbol(r.value)
  {
    if v.Symbol? then Some(v.name) else None
  }

  /** A Symbol is accepted and read back as exactly that association name. */
  lemma SymbolRoundTrip(name: Sym)
    ensures CheckPreload(Symbol(name)).None?
    ensures PreloadName(Symbol(name)) == Some(name)
  {
  }

  /** Without a `:preload` option construction succeeds and no association is named. */
  lemma AbsentPreloadAccepted(options: map<Sym, RubyValue>)
    requires PreloadKey !in options
    ensures CheckPreload(Lookup(options, PreloadKey)).None?
    ensures PreloadName(Lookup(options, PreloadKey)).None?
  {
  }

  /**
   * One exposure object. `attribute` and `options` stand for the state the
   * host initializer sets up; `hostInitialized` records that it ran.
   */
  class ExposureBase {
    var attribute: Sym
    var options: map<Sym, RubyValue>
    /** `attr_reader :preload`: the stored option value, read as it was given. */
    var preload: RubyValue
    var hostInitialized: bool

    /** A freshly allocated exposure, before `initialize` has run. */
    constructor Allocate()
      ensures attribute == "" && options == map[] && preload == Nil && !hostInitialized
    {
      attribute := "";
      options := map[];
      preload := Nil;
      hostInitialized := false;
    }

    /**
     * `initialize(attribute, options, conditions)`: stores `options[:preload]`,
     * raises when it is set but not a Symbol, and otherwise calls the host
     * initializer. A rejected option never reaches the host initializer.
     */
    method Initialize(attribute: Sym, options: map<Sym, RubyValue>) returns (raised: Option<Error>)
      modifies this
      ensures preload == Lookup(options, PreloadKey)
      ensures raised == CheckPreload(preload)
      ensures hostInitialized <==> raised.None?
      ensures raised.None? ==> this.attribute == attribute && this.options == options
      ensures raised.Some? ==> this.attribute == old(this.attribute) && this.options == old(this.options)
    {
      preload := Lookup(options, PreloadKey);
      raised := CheckPreload(preload);
      if raised.Some? {
        hostInitialized := false;
        return;
      }
      HostInitialize(attribute, options);
    }

    /** `super`: the host library's own initializer, reduced to what it stores. */
    method HostInitialize(attribute: Sym, options: map<Sym, RubyValue>)
      modifies this
      ensures this.attribute == attribute && this.options == options && hostInitialized
      ensures preload == old(preload)
    {
      this.attribute := attribute;
      this.options := options;
      hostInitialized := true;
    }
  }
}
