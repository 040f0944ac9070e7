/**
 * SerializationDescriptor: names a serializer and the type it converts to and
 * from. Descriptors are compared by name alone; the type plays no part in
 * equality or hashing.
 */
module Serialization {
  import opened Common

  datatype Descriptor = Descriptor(name: string, typ: TypeTag)

  const ByteType: TypeTag := TypeTag("System.Byte", true)
  const StringType: TypeTag := TypeTag("System.String", true)

  /** The constructor: a null name is refused first, then a null type. */
  function NewDescriptor(name: Option<string>, typ: Option<TypeTag>): (r: Result<Descriptor>)
    ensures r.Ok? <==> name.Some? && typ.Some?
    ensures r.Err? ==> r.error == ArgumentNull
    ensures r.Ok? ==> r.value.name == name.value && r.value.typ == typ.value
  {
    if name.None? || typ.None? then Err(ArgumentNull) else Ok(Descriptor(name.value, typ.value))
  }

  /**
   * Equality with another object; `other` is None when that object is null or
   * not a descriptor.
   */
  predicate Equals(d: Descriptor, other: Option<Descriptor>)
  {
    other.Some? && other.value.name == d.name
  }

  /** The hash code is the name's hash code, under the platform's string hash `hash`. */
  function HashCode(d: Descriptor, hash: string -> int): int
  {
    hash(d.name)
  }

  /** The `==` operator: the same names. */
  function Eq(a: Descriptor, b: Descriptor): (r: bool)
    ensures r <==> a.name == b.name
  {
    Equals(a, Some(b))
  }

  /** The `!=` operator: different names. */
  function NotEq(a: Descriptor, b: Descriptor): (r: bool)
    ensures r <==> a.name != b.name
  {
    !Equals(a, Some(b))
  }

  const DotNet: Descriptor := Descriptor("DotNet", ByteType)
  const Json: Descriptor := Descriptor("json", StringType)
  const Protobuf: Descriptor := Descriptor("protobuf", ByteType)

  /**
   * The operators agree with Equals and with each other, and replacing a
   * descriptor's type does not change what it equals.
   */
  lemma OperatorsAgree(a: Descriptor, b: Descriptor, t: TypeTag)
    ensures Eq(a, b) == Equals(a, Some(b)) && NotEq(a, b) == !Eq(a, b)
    ensures Eq(Descriptor(a.name, t), a) && (Eq(a, b) <==> Eq(Descriptor(a.name, t), b))
  {
  }

  /**
   * Equals and `==` are equivalence relations on descriptors, and a descriptor
   * never equals null or an object of another type.
   */
  lemma EqIsEquivalence(a: Descriptor, b: Descriptor, c: Descriptor)
    ensures !Equals(a, None) && Equals(a, Some(a))
    ensures Equals(a, Some(b)) ==> Equals(b, Some(a))
    ensures Equals(a, Some(b)) && Equals(b, Some(c)) ==> Equals(a, Some(c))
    ensures Eq(a, a)
    ensures Eq(a, b) ==> Eq(b, a)
    ensures Eq(a, b) && Eq(b, c) ==> Eq(a, c)
  {
  }

  /** Equal descriptors have equal hash codes, under any string hash. */
  lemma EqualHashesEqual(a: Descriptor, b: Descriptor, hash: string -> int)
    requires Eq(a, b)
    ensures HashCode(a, hash) == HashCode(b, hash)
  {
  }

  /** The predefined descriptors are pairwise unequal, though DotNet and Protobuf share a type. */
  lemma PredefinedDistinct()
    ensures NotEq(DotNet, Json) && NotEq(DotNet, Protobuf) && NotEq(Json, Protobuf)
    ensures DotNet.typ == Protobuf.typ
  {
    assert DotNet.name[0] != Json.name[0];
    assert DotNet.name[0] != Protobuf.name[0];
    assert Json.name[0] != Protobuf.name[0];
  }

  /** The predefined descriptors are what the constructor makes of their names and types. */
  lemma PredefinedAreConstructed()
    ensures NewDescriptor(Some("DotNet"), Some(ByteType)) == Ok(DotNet)
    ensures NewDescriptor(Some("json"), Some(StringType)) == Ok(Json)
    ensures NewDescriptor(Some("protobuf"), Some(ByteType)) == Ok(Protobuf)
  {
  }
}
