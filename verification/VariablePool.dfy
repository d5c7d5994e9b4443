/** The pool of variable values (src/graphon/runtime/variable_pool.py). */
module VariablePool {
  import opened Templates

  /** A segment: its markdown, and the parts that an extended selector can reach. */
  datatype Value =
    | Scalar(markdown: string)
    | Object(markdown: string, fields: map<string, Value>)
    | File(markdown: string, attributes: map<string, Value>)

  /** Values by node id and variable name. */
  type Pool = map<(string, string), Value>

  /** `_get_nested_segment`: follow attribute names through object values. */
  function GetNested(v: Value, attrs: seq<string>): Option<Value>
    decreases |attrs|
  {
    if attrs == [] then Some(v)
    else if v.Object? && attrs[0] in v.fields then GetNested(v.fields[attrs[0]], attrs[1..])
    else None
  }

  /** `VariablePool.get`. A file offers one attribute and ignores the rest of the selector. */
  function Get(pool: Pool, selector: Selector): Option<Value> {
    if |selector| < 2 || (selector[0], selector[1]) !in pool then None
    else
      var v := pool[(selector[0], selector[1])];
      if |selector| == 2 then Some(v)
      else if v.File? then (if selector[2] in v.attributes then Some(v.attributes[selector[2]]) else None)
      else GetNested(v, selector[2..])
  }
}
