/**
  options.go: the functional options of a Cmder. Each option is a function
  that assigns one field of the Cmder it is given; NewCmder runs them in the
  order passed (cmder.go:39-41). WithPrefix hands its prefix to the layered
  resolver's SetEnvPrefix; that hand-over is modelled as the envPrefix field.
 */
module Options {

  /** CmderOption: one constructor per option function of options.go, holding
      the argument its closure captures. */
  datatype CmderOption =
    | WithShortDesc(short: string)
    | WithLongDesc(long: string)
    | WithVersion(version: string)
    | WithPrefix(prefix: string)

  /** The fields of a Cmder that options set. */
  datatype Setting = LongDesc | ShortDesc | Version | EnvPrefix

  datatype Settings = Settings(longDesc: string, shortDesc: string, version: string, envPrefix: string)

  /** The settings of a zero Cmder, `Cmder{}`. */
  const Unset := Settings("", "", "", "")

  function Get(s: Settings, which: Setting): string
  {
    match which
    case LongDesc => s.longDesc
    case ShortDesc => s.shortDesc
    case Version => s.version
    case EnvPrefix => s.envPrefix
  }

  /** The field an option assigns. */
  function Target(opt: CmderOption): Setting
  {
    match opt
    case WithShortDesc(_) => ShortDesc
    case WithLongDesc(_) => LongDesc
    case WithVersion(_) => Version
    case WithPrefix(_) => EnvPrefix
  }

  /** The value an option assigns. */
  function Argument(opt: CmderOption): string
  {
    match opt
    case WithShortDesc(short) => short
    case WithLongDesc(long) => long
    case WithVersion(version) => version
    case WithPrefix(prefix) => prefix
  }

  /** What calling opt(c) does: its own field takes its argument and every
      other field keeps its value. */
  function Step(s: Settings, opt: CmderOption): (r: Settings)
    ensures Get(r, Target(opt)) == Argument(opt)
    ensures forall which | which != Target(opt) :: Get(r, which) == Get(s, which)
  {
    match opt
    case WithShortDesc(short) => s.(shortDesc := short)
    case WithLongDesc(long) => s.(longDesc := long)
    case WithVersion(version) => s.(version := version)
    case WithPrefix(prefix) => s.(envPrefix := prefix)
  }

  /** The settings after running opts on s, first to last. */
  function Applied(s: Settings, opts: seq<CmderOption>): Settings
    decreases |opts|
  {
    if opts == [] then s else Applied(Step(s, opts[0]), opts[1..])
  }

  /** The argument of the last option in opts that assigns which, or dflt
      when none does. */
  function LastSet(opts: seq<CmderOption>, which: Setting, dflt: string): string
    decreases |opts|
  {
    if opts == [] then dflt
    else if Target(opts[|opts| - 1]) == which then Argument(opts[|opts| - 1])
    else LastSet(opts[..|opts| - 1], which, dflt)
  }

  /** Running one more option after opts is one more step. */
  lemma {:induction false} AppliedSnoc(s: Settings, opts: seq<CmderOption>, opt: CmderOption)
    ensures Applied(s, opts + [opt]) == Step(Applied(s, opts), opt)
    decreases |opts|
  {
    if opts == [] {
      assert [opt][1..] == [];
    } else {
      assert (opts + [opt])[1..] == opts[1..] + [opt];
      AppliedSnoc(Step(s, opts[0]), opts[1..], opt);
    }
  }

  /** Options apply in the order given: each field ends with the argument of
      the last option that assigns it, and keeps its value when none does. */
  lemma {:induction false} LastOptionWins(s: Settings, opts: seq<CmderOption>, which: Setting)
    ensures Get(Applied(s, opts), which) == LastSet(opts, which, Get(s, which))
    decreases |opts|
  {
    if opts != [] {
      var init := opts[..|opts| - 1];
      var last := opts[|opts| - 1];
      assert opts == init + [last];
      AppliedSnoc(s, init, last);
      LastOptionWins(s, init, which);
    }
  }

  class Cmder {
    var longDesc: string
    var shortDesc: string
    var version: string
    /** The prefix WithPrefix passes to the resolver's SetEnvPrefix. */
    var envPrefix: string

    function Current(): Settings
      reads this
    {
      Settings(longDesc, shortDesc, version, envPrefix)
    }

    /** `Cmder{}`: every option-set field empty. */
    constructor ()
      ensures Current() == Unset
    {
      longDesc, shortDesc, version, envPrefix := "", "", "", "";
    }

    /** The option part of NewCmder: a zero Cmder, then every option in
        order. */
    constructor New(opts: seq<CmderOption>)
      ensures Current() == Applied(Unset, opts)
    {
      longDesc, shortDesc, version, envPrefix := "", "", "", "";
      new;
      ApplyAll(opts);
    }

    /** opt(c): assigns the option's field and leaves every other field. */
    method Apply(opt: CmderOption)
      modifies this
      ensures Current() == Step(old(Current()), opt)
      ensures opt.WithShortDesc? ==> shortDesc == opt.short
      ensures opt.WithLongDesc? ==> longDesc == opt.long
      ensures opt.WithVersion? ==> version == opt.version
      ensures opt.WithPrefix? ==> envPrefix == opt.prefix
    {
      match opt {
        case WithShortDesc(short) => shortDesc := short;
        case WithLongDesc(long) => longDesc := long;
        case WithVersion(v) => version := v;
        case WithPrefix(prefix) => envPrefix := prefix;
      }
    }

    /** NewCmder's loop: every option, first to last. */
    method ApplyAll(opts: seq<CmderOption>)
      modifies this
      ensures Current() == Applied(old(Current()), opts)
    {
      for i := 0 to |opts|
        invariant Current() == Applied(old(Current()), opts[..i])
      {
        assert opts[..i + 1] == opts[..i] + [opts[i]];
        AppliedSnoc(old(Current()), opts[..i], opts[i]);
        Apply(opts[i]);
      }
      assert opts[..|opts|] == opts;
    }
  }
}
