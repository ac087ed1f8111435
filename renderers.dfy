/**
 * The renderer base class: a registry of the properties a renderer accepts, in the order
 * they were declared, each with a type tag, a default value and a description.
 */
module Renderers {

  const INTEGER: int := 0
  const FLOAT: int := 1
  const STRING: int := 2

  /** `Renderer.Property`: the getters return exactly these constructor arguments. */
  datatype Property = Property(key: string, kind: int, defaultValue: string, description: string)

  /** What a renderer's `setProperty` did with a key/value pair (the source only logs the last two). */
  datatype SetOutcome =
    | Applied
    | UnknownKey   // "Unknown property key", nothing changes
    | Rejected     // the value did not parse, the old value stays

  /** The keys of a property list, in order. */
  function Keys(props: seq<Property>): (keys: seq<string>)
    ensures |keys| == |props|
    ensures forall i :: 0 <= i < |props| ==> keys[i] == props[i].key
  {
    if props == [] then [] else Keys(props[..|props| - 1]) + [props[|props| - 1].key]
  }

  class Renderer {
    var properties: seq<Property>

    constructor()
      ensures properties == []
    {
      properties := [];
    }

    /** `addProperty(key, type, description)`: declares a property whose default is the empty string. */
    method AddProperty(key: string, kind: int, description: string)
      modifies this
      ensures properties == old(properties) + [Property(key, kind, "", description)]
    {
      properties := properties + [Property(key, kind, "", description)];
    }

    /** `addProperty(key, type, defaultValue, description)`. */
    method AddPropertyWithDefault(key: string, kind: int, defaultValue: string, description: string)
      modifies this
      ensures properties == old(properties) + [Property(key, kind, defaultValue, description)]
    {
      properties := properties + [Property(key, kind, defaultValue, description)];
    }

    /** `getValidProperties`: the declared properties, in declaration order. */
    function GetValidProperties(): seq<Property>
      reads this
    {
      properties
    }

    /** The base `setProperty` accepts every pair and changes nothing. */
    method SetProperty(key: string, value: string)
      ensures properties == old(properties)
    {
    }
  }

  /** Declaring a property only appends its key: earlier keys keep their positions. */
  lemma {:induction false} KeysAppend(props: seq<Property>, p: Property)
    ensures Keys(props + [p]) == Keys(props) + [p.key]
  {
    assert (props + [p])[..|props|] == props;
  }
}
