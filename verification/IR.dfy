/** The typed tree of ir/node.go, as far as the passes over it read it.

    One record stands for every node, as in the source: which fields mean
    something depends on the operation. Types and objects are values here. An
    object's `id` is its pointer identity. */
module IR {

  datatype Kind =
    | Bool | Number | Uintptr | Str | Slice | Array | Ptr | UnsafePtr
    | Map | Chan | FuncKind | Interface | Struct | Void

  /** `pointers` is the answer of Type.HasPointers, and `elemArray` says that
      the element type is an array. `NoType` is the nil type. */
  datatype Type = NoType | Type(kind: Kind, pointers: bool, elemArray: bool)
  {
    predicate Is(k: Kind) { Type? && kind == k }

    /** A value of this type can hold a reference. An unknown type can. */
    predicate MayHold() { NoType? || pointers }
  }

  datatype Class = ClassParam | ClassResult | ClassLocal | ClassGlobal | ClassFunc

  datatype Object = NoObject | Object(id: nat, typ: Type, cls: Class, escapes: bool)

  /** `OOther` stands for every operation no pass here names: OSelect, OClosure,
      ODefer, OGo, OSend, ORecv, OMake, OAppend and the rest of the table. */
  datatype Op =
    | OConst | OLocal | OGlobal | OField | OIndex | ODeref | OAddr
    | OUnary | OBinary | OCompare | OConvert | OCall
    | OIf | OFor | OSwitch | OBlock | OGoto | OLabel | OReturn | OBreak | OContinue
    | ORange | OTypeAssert | OTypeSwitch | OLen | OCap
    | OAssign | OCase | OCompositeLit | OSlice | ODeclare | ONilCheck
    | OOther(code: nat)

  datatype Node =
    | NoNode
    | Node(op: Op, typ: Type, obj: Object, x: Node, y: Node, args: seq<Node>,
           init: seq<Node>, body: seq<Node>, post: seq<Node>, els: seq<Node>)

  datatype Func = Func(params: seq<Object>, results: seq<Object>, body: seq<Node>)

  /** A node names one of `objs`, at it or below it, through each field that
      ir.Walk visits. */
  predicate Names(n: Node, objs: set<Object>)
    decreases n, 1
  {
    n.Node? && NamesIn(n, objs)
  }

  predicate NamesIn(n: Node, objs: set<Object>)
    requires n.Node?
    decreases n, 0
  {
    || (n.obj.Object? && n.obj in objs)
    || Names(n.x, objs) || Names(n.y, objs) || NamesAny(n.args, objs)
    || NamesAny(n.init, objs) || NamesAny(n.body, objs) || NamesAny(n.post, objs) || NamesAny(n.els, objs)
  }

  predicate NamesAny(ns: seq<Node>, objs: set<Object>)
    decreases ns, 0
  {
    ns != [] && (Names(ns[0], objs) || NamesAny(ns[1..], objs))
  }
}
