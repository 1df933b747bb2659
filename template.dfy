/**
  The typed content registry every template carries: a map from shared
  content keys to the values a template variant exposes under them.
 */
module Templates {
  import Parameters

  /** The shared content keys of product definitions; each is bound to one value type. */
  datatype ProductDefinitionContent =
    | ParameterCategory
    | ParameterNumber
    | Parameter
    | GeneratingProcessType
    | EnsembleForecastsNumber
    | PerturbationNumber

  /** A registered value: an integer code or a parameter descriptor. */
  datatype ContentValue = IntValue(n: int) | ParameterValue(p: Parameters.Parameter)

  /** The value type bound to each key: `Parameter` holds a descriptor, every other key an integer. */
  predicate WellTyped(key: ProductDefinitionContent, v: ContentValue)
  {
    if key.Parameter? then v.ParameterValue? else v.IntValue?
  }

  /** The default value of a key's type, left in the result of a failed query. */
  function DefaultValue(key: ProductDefinitionContent): (v: ContentValue)
    ensures WellTyped(key, v)
  {
    if key.Parameter? then ParameterValue(Parameters.Parameter(Parameters.ParameterCategory(0, 0, ""), 0, "", "", false))
    else IntValue(0)
  }

  class Template {
    /** The registered accessors, each reduced to the value it yields. */
    var content: map<ProductDefinitionContent, ContentValue>

    ghost predicate Valid()
      reads this
    {
      forall k :: k in content ==> WellTyped(k, content[k])
    }

    constructor ()
      ensures Valid() && content == map[]
    {
      content := map[];
    }

    /** RegisterContent: binds a key to the value of its accessor. */
    method RegisterContent(key: ProductDefinitionContent, value: ContentValue)
      requires Valid() && WellTyped(key, value)
      modifies this
      ensures Valid() && content == old(content)[key := value]
    {
      content := content[key := value];
    }

    /**
      TryGet: true with the registered value for a registered key; false with
      the default of the key's type for any other key.
     */
    method TryGet(key: ProductDefinitionContent) returns (found: bool, result: ContentValue)
      requires Valid()
      ensures found <==> key in content
      ensures found ==> result == content[key]
      ensures !found ==> result == DefaultValue(key)
      ensures WellTyped(key, result)
    {
      if key in content {
        return true, content[key];
      }
      return false, DefaultValue(key);
    }
  }
}
