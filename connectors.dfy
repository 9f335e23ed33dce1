/**
 Connectors are the endpoints through which the nodes of a pipeline pass data.
 Every connector belongs to at most one parent node and keeps an ordered list
 of the partner connectors it is wired to. This module models the base
 connector: its identity, its name, its parent-node reference and the partner
 bookkeeping, together with the read-only views it offers.
 */
module Connectors {

  /** An optional value; `None` stands for the absent argument. */
  datatype Option<T> = None | Some(value: T)

  /**
   Stands for the pipeline's node class, which owns connectors. Nothing of the
   node itself is modelled: a connector only holds a reference to it.
   */
  class Node {
  }

  /**
   The number of characters that the display format adds around its three
   fields: `<` and `(name=` (seven) before the name, `) object at ` between
   the name and the identity, and `>` at the end.
   */
  const FormatOverhead: nat := |"<"| + |"(name="| + |") object at "| + |">"|

  /**
   The display format `<K(name=N) object at I>` for a class name K, a name N
   and an identity I. Each field sits at a position that depends only on the
   lengths of the fields before it.
   */
  function Display(className: string, name: string, id: string): (s: string)
    ensures |s| == |className| + |name| + |id| + FormatOverhead
    ensures s[..|className| + 7] == "<" + className + "(name="
    ensures s[|className| + 7..|className| + 7 + |name|] == name
    ensures s[|className| + 7 + |name|..|s| - |id| - 1] == ") object at "
    ensures s[|s| - |id| - 1..|s| - 1] == id
    ensures s[|s| - 1] == '>'
  {
    "<" + className + "(name=" + name + ") object at " + id + ">"
  }

  class BaseConnector {
    /**
     The identity token. The runtime derives it from the object's address; here
     it is an opaque string supplied at construction and never changed.
     */
    const id: string
    /** The human-readable label; a public attribute that callers may reassign. */
    var name: string
    /** The parent node, or null while the connector is unassigned. */
    var node: Node?
    /** The connectors this one is wired to, in the order they were added. */
    var connectedPartners: seq<BaseConnector>

    /**
     A new connector: it is named `name` when one is given (an empty string
     included) and after its identity otherwise; it has no parent node and no
     partners.
     */
    constructor (name: Option<string>, id: string)
      ensures this.id == id
      ensures name.None? ==> this.name == id
      ensures name.Some? ==> this.name == name.value
      ensures ParentNode() == null
      ensures Partners() == [] && !IsConnected()
    {
      this.id := id;
      this.name := if name.None? then id else name.value;
      this.node := null;
      this.connectedPartners := [];
    }

    /** The node this connector is assigned to, or null if there is none. */
    function ParentNode(): (n: Node?)
      reads this
      ensures n == node
    {
      node
    }

    /**
     A snapshot of the partner list. The result is a value: reading it changes
     nothing, and later updates of the connector's list do not alter it.
     */
    function Partners(): (ps: seq<BaseConnector>)
      reads this
      ensures |ps| == |connectedPartners|
      ensures forall i :: 0 <= i < |ps| ==> ps[i] == connectedPartners[i]
    {
      connectedPartners
    }

    /** Whether the connector has any established connection. */
    function IsConnected(): (b: bool)
      reads this
      ensures b <==> |Partners()| > 0
    {
      connectedPartners != []
    }

    /**
     The diagnostic form of this connector under the class name `className`
     (the runtime class of the object, which the caller supplies).
     */
    function ToString(className: string): (s: string)
      reads this
      ensures s == Display(className, name, id)
    {
      Display(className, name, id)
    }
  }

  /** Whether `c` is a digit of a hexadecimal numeral as Python's `hex` writes it. */
  predicate IsHexDigit(c: char)
  {
    '0' <= c <= '9' || 'a' <= c <= 'f'
  }

  /**
   Whether `id` has the shape of an identity the runtime produces: `0x`
   followed by one or more lower-case hexadecimal digits.
   */
  predicate IsHexIdentity(id: string)
  {
    |id| > 2 && id[..2] == "0x" && forall j :: 2 <= j < |id| ==> IsHexDigit(id[j])
  }

  /**
   For a fixed identity and class name, the display form changes exactly when
   the name does: renaming a connector changes its display form.
   */
  lemma DisplayDistinguishesNames(className: string, n1: string, n2: string, id: string)
    ensures Display(className, n1, id) == Display(className, n2, id) <==> n1 == n2
  {
  }

  /**
   For identities of the runtime's shape, the display form under a given class
   name determines both the name and the identity. An identity holds no space,
   while the separator before it ends in one; so if the two identities had
   different lengths, that space would fall inside the longer one.
   */
  lemma DisplayDeterminesFields(className: string, n1: string, i1: string, n2: string, i2: string)
    requires IsHexIdentity(i1) && IsHexIdentity(i2)
    requires Display(className, n1, i1) == Display(className, n2, i2)
    ensures n1 == n2 && i1 == i2
  {
    var s := Display(className, n1, i1);
    if |i1| < |i2| {
      SeparatorSpaceInsideLongerIdentity(className, n1, i1, n2, i2);
    } else if |i2| < |i1| {
      SeparatorSpaceInsideLongerIdentity(className, n2, i2, n1, i1);
    }
    assert |i1| == |i2|;
    assert i1 == s[|s| - |i1| - 1..|s| - 1] == i2;
    assert n1 == s[|className| + 7..|className| + 7 + |n1|] == n2;
  }

  /** The displays of a shorter and a longer runtime identity never coincide. */
  lemma SeparatorSpaceInsideLongerIdentity(className: string, n1: string, i1: string, n2: string, i2: string)
    requires IsHexIdentity(i2)
    requires |i1| < |i2|
    ensures Display(className, n1, i1) != Display(className, n2, i2)
  {
    var s1, s2 := Display(className, n1, i1), Display(className, n2, i2);
    if |s1| == |s2| {
      var p := |s1| - |i1| - 2;
      var sep := s1[|className| + 7 + |n1|..|s1| - |i1| - 1];
      assert sep == ") object at ";
      assert s1[p] == sep[|sep| - 1] == ' ';
      var j := p - (|s2| - |i2| - 1);
      assert s2[p] == s2[|s2| - |i2| - 1..|s2| - 1][j] == i2[j];
      if j < 2 {
        assert i2[j] == i2[..2][j];
      } else {
        assert IsHexDigit(i2[j]);
      }
      assert s1[p] != s2[p];
    }
  }
}
