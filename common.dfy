/**
 * Values shared by every component of the message router model: optional
 * (nullable) values, results of operations that can throw, the exceptions the
 * router raises, and the opaque identities it keys its registries by.
 */
module Common {

  /** A nullable reference: `None` stands for `null`. */
  datatype Option<+T> = None | Some(value: T)

  /** The exceptions the modelled operations raise. */
  datatype Exception =
    | ArgumentNull                        // ArgumentNullException
    | Argument                            // ArgumentException (also Dictionary.Add on a present key)
    | ArgumentOutOfRange                  // a list indexer past the end
    | IndexOutOfRange                     // an array indexer past the end
    | InvalidOperation                    // InvalidOperationException
    | InvalidCast                         // InvalidCastException
    | KeyNotFound                         // KeyNotFoundException
    | NullReference                       // NullReferenceException
    | Timeout                             // TimeoutException
    | MissingFactory(kind: TypeTag)       // MissingFactoryException for a transport kind
    | RequestHandlerNotFound(requestType: TypeTag)
    | UnserializableType(type_: TypeTag)
    | Raised(id: nat)                     // an exception supplied by application code

  /** The outcome of an operation that returns a value or throws. */
  datatype Result<+T> = Ok(value: T) | Err(error: Exception)

  /** The outcome of an operation that returns nothing or throws. */
  datatype Status = Done | Threw(error: Exception)

  /** An endpoint descriptor; equality is by content. */
  datatype Address = Address(uri: string)

  /**
   * A runtime type, identified by its full name; `serializable` says whether
   * the type carries the [Serializable] attribute.
   */
  datatype TypeTag = TypeTag(fullName: string, serializable: bool)

  /** An application object (a request, response or topic event) of an exact runtime type. */
  datatype Obj = Obj(runtimeType: TypeTag, id: nat)

  /** Identity of a background monitor. */
  type MonitorId = nat

  /**
   * The argument checks a constructor performs, one flag per reference
   * argument (true when it is not null): the first null one throws.
   */
  function NullCheck(present: seq<bool>): Option<Exception>
  {
    if forall i :: 0 <= i < |present| ==> present[i] then None else Some(ArgumentNull)
  }

  /** `xs` lists every element of `s` exactly once, in some order. */
  ghost predicate ListsOnce<T>(xs: seq<T>, s: set<T>)
  {
    multiset(xs) == multiset(s)
  }

  lemma MultisetOfInsert<T>(s: set<T>, x: T)
    requires x !in s
    ensures multiset(s + {x}) == multiset(s) + multiset{x}
  {
    forall y ensures multiset(s + {x})[y] == (multiset(s) + multiset{x})[y] {
      if y == x {
        assert y in s + {x} && y !in s;
      }
    }
  }

  /** One more loop step over a set: listing a new element extends the listing. */
  lemma ListsOnceExtend<T>(xs: seq<T>, s: set<T>, x: T)
    requires ListsOnce(xs, s) && x !in s
    ensures ListsOnce(xs + [x], s + {x})
  {
    MultisetOfInsert(s, x);
  }

  /** A listing of a set has one entry per element. */
  lemma ListsOnceLength<T>(xs: seq<T>, s: set<T>)
    requires ListsOnce(xs, s)
    ensures |xs| == |s|
  {
    assert |multiset(xs)| == |xs|;
    assert |multiset(s)| == |s|;
  }

  /** A map that sends distinct keys to distinct values has as many values as keys. */
  lemma {:induction false} InjectiveValuesCount<K, V>(m: map<K, V>)
    requires forall a, b :: a in m && b in m && a != b ==> m[a] != m[b]
    ensures |m.Values| == |m.Keys|
    decreases |m.Keys|
  {
    if m.Keys != {} {
      var k :| k in m.Keys;
      var rest := m - {k};
      assert rest.Keys == m.Keys - {k};
      assert m.Values == rest.Values + {m[k]} by {
        forall v | v in m.Values ensures v in rest.Values + {m[k]} {
          var a :| a in m && m[a] == v;
          if a != k {
            assert a in rest;
          }
        }
      }
      assert m[k] !in rest.Values;
      InjectiveValuesCount(rest);
    } else {
      assert m == map[];
    }
  }
}
