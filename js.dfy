/**
 * The JavaScript values the adapter inspects: the properties of the options object
 * given to the constructor, and the body the engine leaves on its response.
 */
module Js {
  import opened Wrappers

  /** A JavaScript value. Objects and functions are identified by an opaque reference. */
  datatype JsValue =
    | Undefined
    | Null
    | Bool(b: bool)
    | Number(n: real)
    | NaN
    | BigInt(i: int)
    | Str(s: string)
    | Object(ref: nat)

  /**
   * What `!!v` computes (ToBoolean, section 7.1.2 of ECMA-262): exactly the seven
   * falsy values give false. The real number 0.0 stands for both +0 and -0.
   */
  function Truthy(v: JsValue): (b: bool)
    ensures !b <==> v in {Undefined, Null, Bool(false), Number(0.0), NaN, BigInt(0), Str("")}
  {
    match v
    case Undefined => false
    case Null => false
    case Bool(x) => x
    case Number(n) => n != 0.0
    case NaN => false
    case BigInt(i) => i != 0
    case Str(s) => |s| > 0
    case Object(_) => true
  }

  /** Reading property `key` of an object: an absent property reads as undefined. */
  function Get(props: map<string, JsValue>, key: string): JsValue
  {
    if key in props then props[key] else Undefined
  }

  /** A plain JavaScript object whose own properties can be deleted in place. */
  class JsObject {
    var props: map<string, JsValue>

    constructor (props: map<string, JsValue>)
      ensures this.props == props
    {
      this.props := props;
    }

    /** `delete obj[key]`: removes the property if present, and does nothing otherwise. */
    method Delete(key: string)
      modifies this
      ensures props == old(props) - {key}
    {
      props := props - {key};
    }
  }
}
