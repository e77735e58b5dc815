/** Per-column configuration of `_config.py`: a `Config` pairs a selector
    with a dictionary of column options, `ConfigList` holds several, and
    `apply_configs` attaches a `ConfigList` to a schema class. */
module Config {
  import opened DTypes
  import opened Selectors

  /** `SelectorLike`: one column name, an iterable of names, or a selector. */
  datatype SelectorLike =
    | Name(name: string)
    | NameList(names: seq<string>)
    | Sel(selector: Selector)

  /** The keys of `_PossibleConfigs`. */
  datatype ConfigKey = Nullable | Required | Cast | AllowNan | AllowInf

  class Config {
    var selector: Selector
    var dct: map<ConfigKey, bool>

    /** `Config.__init__`: a name or an iterable of names becomes `by_name`
        of it; a selector is kept as given. The keyword options are stored
        as they are. */
    constructor(like: SelectorLike, kwargs: map<ConfigKey, bool>)
      ensures dct == kwargs
      ensures like.Sel? ==> selector == like.selector
      ensures like.Name? ==> forall n, d :: Holds(selector, n, d) <==> n == like.name
      ensures like.NameList? ==> forall n, d :: Holds(selector, n, d) <==> n in like.names
    {
      var actual: Selector;
      match like {
        case Sel(s) =>
          actual := s;
        case Name(n) =>
          actual := ByName([One(n)]);
          assert Flattened([One(n)]) == [n];
        case NameList(ns) =>
          actual := ByName([Many(ns)]);
          assert Flattened([Many(ns)]) == ns;
      }
      selector := actual;
      dct := kwargs;
    }
  }

  /** `ConfigList(*args)`: the configs, in the order given. */
  class ConfigList {
    var args: seq<Config>

    constructor(args: seq<Config>)
      ensures this.args == args
    {
      this.args := args;
    }
  }

  /** A schema class, as far as `apply_configs` touches it: the attribute
      the decorator sets. */
  class SchemaClass {
    var privateConfig: ConfigList?

    constructor()
      ensures privateConfig == null
    {
      privateConfig := null;
    }
  }

  /** The closure `apply_configs(*args)` returns, holding its arguments. */
  class ConfigDecorator {
    const args: seq<Config>

    constructor(args: seq<Config>)
      ensures this.args == args
    {
      this.args := args;
    }

    /** `decorator(cls)`: attaches a new `ConfigList` of the captured configs
        to `cls` and returns `cls` itself. */
    method Decorate(cls: SchemaClass) returns (r: SchemaClass)
      modifies cls
      ensures r == cls
      ensures cls.privateConfig != null && fresh(cls.privateConfig)
      ensures cls.privateConfig.args == args
    {
      var list := new ConfigList(args);
      cls.privateConfig := list;
      r := cls;
    }
  }

  /** `apply_configs(*args)`: a decorator that attaches these configs. */
  method ApplyConfigs(args: seq<Config>) returns (d: ConfigDecorator)
    ensures fresh(d) && d.args == args
  {
    d := new ConfigDecorator(args);
  }
}
