/** The small pure helpers of `Util`: turning a class name into a path and
    testing a JSON object's members for presence. */
module Util {

  /** `className2Path`: every `.` becomes `/`, every other character stays. */
  function ClassName2Path(className: string): (path: string)
    ensures |path| == |className|
    ensures forall i :: 0 <= i < |className| ==>
              path[i] == (if className[i] == '.' then '/' else className[i])
  {
    if className == [] then []
    else [if className[0] == '.' then '/' else className[0]] + ClassName2Path(className[1..])
  }

  /** The path holds no `.`, and converting it again changes nothing. */
  lemma ClassName2PathIdempotent(className: string)
    ensures '.' !in ClassName2Path(className)
    ensures ClassName2Path(ClassName2Path(className)) == ClassName2Path(className)
  {
    var p := ClassName2Path(className);
    forall i | 0 <= i < |p|
      ensures p[i] != '.'
    {
    }
  }

  /** Jackson's node kinds, as far as the presence predicates can tell them
      apart: JSON `null`, an object, a string, and everything else (numbers,
      booleans, arrays, binary and POJO nodes). */
  datatype NodeKind = NullNode | ObjectNode | TextualNode | OtherNode

  /** A Jackson `ObjectNode`: its members' kinds by field name. */
  type JsonObject = map<string, NodeKind>

  /** `hasNonNullData`: the member exists and is not JSON `null`. */
  predicate HasNonNullData(node: JsonObject, key: string) {
    key in node && node[key] != NullNode
  }

  /** `hasNonNullObjectData`: the member exists, is not `null`, and is an object. */
  predicate HasNonNullObjectData(node: JsonObject, key: string) {
    HasNonNullData(node, key) && node[key] == ObjectNode
  }

  /** `hasNonNullTextualData`: the member exists, is not `null`, and is a string. */
  predicate HasNonNullTextualData(node: JsonObject, key: string) {
    HasNonNullData(node, key) && node[key] == TextualNode
  }

  /** How the three presence predicates relate for any node and key. */
  lemma PresencePredicates(node: JsonObject, key: string)
    ensures key !in node ==> !HasNonNullData(node, key)
    ensures key in node && node[key] == NullNode ==> !HasNonNullData(node, key)
    ensures HasNonNullObjectData(node, key) ==> HasNonNullData(node, key)
    ensures HasNonNullTextualData(node, key) ==> HasNonNullData(node, key)
    ensures !(HasNonNullObjectData(node, key) && HasNonNullTextualData(node, key))
    ensures HasNonNullObjectData(node, key) <==> key in node && node[key] == ObjectNode
    ensures HasNonNullTextualData(node, key) <==> key in node && node[key] == TextualNode
  {
  }
}
