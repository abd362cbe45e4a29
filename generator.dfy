/** A model of the password generator's configuration: the `Curator` object with its
    three optional character pools, the operations that enable them, and the helper
    that turns a string into the vector of its characters.

    The operating-system random source that `Curator` also owns is not modelled; the
    model keeps only whether acquiring it succeeded.
 */
module Generator {

  datatype Option<T> = None | Some(value: T)

  /** The error `Curator::new` reports when the OS random source cannot be opened. */
  datatype InitError = RandomSourceUnavailable

  datatype Result<T> = Ok(value: T) | Err(error: InitError)

  /** Lower case letters. */
  const LC: string := "abcdefghijklmnopqrstuvwxyz"
  /** Upper case letters. */
  const UC: string := "ABCDEFGHIJKLMNOPQRSTUVWXYZ"
  /** Special characters; `\\` is a single backslash. */
  const SPEC: string := "!?#$_%&*+,./\\:;^~[]"

  /** The three character classes a `Curator` can enable. */
  datatype Class = Lower | Upper | Special

  /** The fixed string each class draws its characters from. */
  function Chars(c: Class): string
  {
    match c
    case Lower => LC
    case Upper => UC
    case Special => SPEC
  }

  /** The sizes of the three pools; the escaped backslash of `SPEC` is one character. */
  lemma PoolConstants()
    ensures |LC| == 26 && |UC| == 26 && |SPEC| == 19
    ensures SPEC[12] == '\\' && forall i :: 0 <= i < |SPEC| && i != 12 ==> SPEC[i] != '\\'
  {
  }

  /** The three pools of a `Curator`, as a value. */
  datatype Pools = Pools(lc: Option<seq<char>>, uc: Option<seq<char>>, spec: Option<seq<char>>)

  /** The pool `p` holds for class `c`. */
  function Pool(p: Pools, c: Class): Option<seq<char>>
  {
    match c
    case Lower => p.lc
    case Upper => p.uc
    case Special => p.spec
  }

  /** The state of a freshly created `Curator`: every pool absent. */
  const Initial: Pools := Pools(None, None, None)

  /** Every pool that is present holds exactly the characters of its class. */
  ghost predicate WellFormed(p: Pools)
  {
    forall c: Class :: Pool(p, c) == None || Pool(p, c) == Some(Chars(c))
  }

  /** Enabling class `c`: its pool becomes the characters of its fixed string, in order. */
  function Enable(p: Pools, c: Class): (r: Pools)
    ensures Pool(r, c) == Some(Chars(c))
    ensures forall d: Class :: d != c ==> Pool(r, d) == Pool(p, d)
  {
    match c
    case Lower => p.(lc := Some(LC))
    case Upper => p.(uc := Some(UC))
    case Special => p.(spec := Some(SPEC))
  }

  /** Enabling the classes of `cs`, from first to last. */
  function EnableAll(p: Pools, cs: seq<Class>): Pools
    decreases |cs|
  {
    if cs == [] then p else EnableAll(Enable(p, cs[0]), cs[1..])
  }

  /** The classes whose pool is present. */
  function EnabledClasses(p: Pools): set<Class>
  {
    set c: Class | Pool(p, c).Some?
  }

  /** Every character of every present pool: what a password could be drawn from. */
  function Available(p: Pools): set<char>
  {
    set c: Class, ch: char | Pool(p, c).Some? && ch in Pool(p, c).value :: ch
  }

  /** Two pool states agree on every class exactly when they are equal. */
  lemma PoolsExtensional(p: Pools, q: Pools)
    requires forall c: Class :: Pool(p, c) == Pool(q, c)
    ensures p == q
  {
    assert Pool(p, Lower) == Pool(q, Lower);
    assert Pool(p, Upper) == Pool(q, Upper);
    assert Pool(p, Special) == Pool(q, Special);
  }

  /** A new `Curator` is well formed and has nothing enabled. */
  lemma InitialEmpty()
    ensures WellFormed(Initial)
    ensures EnabledClasses(Initial) == {} && Available(Initial) == {}
  {
  }

  /** Enabling keeps every present pool equal to its class's characters. */
  lemma EnablePreservesWellFormed(p: Pools, c: Class)
    requires WellFormed(p)
    ensures WellFormed(Enable(p, c))
  {
  }

  /** Enabling a class twice gives the same state as enabling it once. */
  lemma EnableIdempotent(p: Pools, c: Class)
    ensures Enable(Enable(p, c), c) == Enable(p, c)
  {
    PoolsExtensional(Enable(Enable(p, c), c), Enable(p, c));
  }

  /** Enabling two classes in either order gives the same state. */
  lemma EnableCommutes(p: Pools, c: Class, d: Class)
    ensures Enable(Enable(p, c), d) == Enable(Enable(p, d), c)
  {
    PoolsExtensional(Enable(Enable(p, c), d), Enable(Enable(p, d), c));
  }

  /** Enabling only adds classes: a pool once present stays present, and the enabled
      classes grow by exactly `c`. */
  lemma EnableGrows(p: Pools, c: Class)
    requires WellFormed(p)
    ensures EnabledClasses(Enable(p, c)) == EnabledClasses(p) + {c}
    ensures Available(p) <= Available(Enable(p, c))
  {
    var q := Enable(p, c);
    forall ch | ch in Available(p) ensures ch in Available(q) {
      var d: Class :| Pool(p, d).Some? && ch in Pool(p, d).value;
      assert Pool(q, d) == Pool(p, d);
    }
  }

  /** After enabling the classes of `cs`, a class's pool is its fixed string if it was
      among them, and otherwise what it was before. */
  lemma {:induction false} EnableAllPool(p: Pools, cs: seq<Class>, c: Class)
    ensures Pool(EnableAll(p, cs), c) == if c in cs then Some(Chars(c)) else Pool(p, c)
    decreases |cs|
  {
    if cs != [] {
      EnableAllPool(Enable(p, cs[0]), cs[1..], c);
      assert c in cs <==> c == cs[0] || c in cs[1..];
    }
  }

  /** Any order, with any repetitions, of enabling the same set of classes gives the same
      final state, and hence the same available characters. */
  lemma EnableAllOrderIndependent(p: Pools, cs: seq<Class>, ds: seq<Class>)
    requires (set c | c in cs) == (set d | d in ds)
    ensures EnableAll(p, cs) == EnableAll(p, ds)
    ensures Available(EnableAll(p, cs)) == Available(EnableAll(p, ds))
  {
    forall c: Class ensures Pool(EnableAll(p, cs), c) == Pool(EnableAll(p, ds), c) {
      EnableAllPool(p, cs, c);
      EnableAllPool(p, ds, c);
      var s1, s2 := set x | x in cs, set x | x in ds;
      assert c in cs <==> c in s1;
      assert c in ds <==> c in s2;
      assert (c in cs) == (c in ds);
    }
    PoolsExtensional(EnableAll(p, cs), EnableAll(p, ds));
  }

  /** Starting from a new `Curator`, enabling the classes of `cs` enables exactly those. */
  lemma EnableAllFromInitial(cs: seq<Class>)
    ensures WellFormed(EnableAll(Initial, cs))
    ensures EnabledClasses(EnableAll(Initial, cs)) == set c | c in cs
  {
    forall c: Class ensures Pool(EnableAll(Initial, cs), c) == (if c in cs then Some(Chars(c)) else None) {
      EnableAllPool(Initial, cs, c);
    }
  }

  /** `to_char`: the characters of `s`, pushed one at a time onto a fresh vector. */
  method ToChar(s: string) returns (v: seq<char>)
    ensures |v| == |s|
    ensures forall i :: 0 <= i < |s| ==> v[i] == s[i]
  {
    v := [];
    for i := 0 to |s|
      invariant v == s[..i]
    {
      v := v + [s[i]];
    }
  }

  /** The documented example of `to_char`: "hello!" keeps both of its `'l'`s, in place. */
  method ToCharHello() returns (v: seq<char>)
    ensures v == ['h', 'e', 'l', 'l', 'o', '!']
    ensures v[2] == v[3] && |v| == 6
  {
    v := ToChar("hello!");
  }

  /** The password generator's configuration. */
  class Curator {
    var lc: Option<seq<char>>
    var uc: Option<seq<char>>
    var spec: Option<seq<char>>

    /** The three pools as a value. */
    function State(): Pools
      reads this
    {
      Pools(lc, uc, spec)
    }

    /** The successful path of `Curator::new`: every pool absent. */
    constructor ()
      ensures lc == None && uc == None && spec == None
      ensures State() == Initial
    {
      lc, uc, spec := None, None, None;
    }

    /** `Curator::new`: fails exactly when the OS random source cannot be acquired,
        which the model receives as `rngAvailable`. */
    static method New(rngAvailable: bool) returns (r: Result<Curator>)
      ensures r.Ok? <==> rngAvailable
      ensures r.Err? ==> r.error == RandomSourceUnavailable
      ensures r.Ok? ==> fresh(r.value) && r.value.State() == Initial
    {
      if !rngAvailable {
        return Err(RandomSourceUnavailable);
      }
      var cur := new Curator();
      r := Ok(cur);
    }

    /** `enable_lc`: the lower case pool becomes the letters of `LC`. */
    method EnableLc()
      modifies this
      ensures lc == Some(LC) && uc == old(uc) && spec == old(spec)
      ensures State() == Enable(old(State()), Lower)
    {
      var chars := ToChar(LC);
      assert chars == LC;
      lc := Some(chars);
    }

    /** `enable_uc`: the upper case pool becomes the letters of `UC`. */
    method EnableUc()
      modifies this
      ensures uc == Some(UC) && lc == old(lc) && spec == old(spec)
      ensures State() == Enable(old(State()), Upper)
    {
      var chars := ToChar(UC);
      assert chars == UC;
      uc := Some(chars);
    }

    /** `enable_spec`: the special pool becomes the characters of `SPEC`. */
    method EnableSpec()
      modifies this
      ensures spec == Some(SPEC) && lc == old(lc) && uc == old(uc)
      ensures State() == Enable(old(State()), Special)
    {
      var chars := ToChar(SPEC);
      assert chars == SPEC;
      spec := Some(chars);
    }
  }
}
