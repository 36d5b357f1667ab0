/** The helpers of util.py: the type vocabulary of the signature catalogue,
    parameter classification, the subclass and containment tests that accept
    generic types, name handling, pretty printing, and the enumeration of all
    parameter-type combinations of a signature. */
module Util {
  import opened Wrappers
  import opened Strings

  /** A type annotation of the catalogue.
      A plain class is given by its method resolution order: its own name
      first, then the names of its ancestors up to `object`. `ArrayOf` is the
      generic `objects.Array[...]`, `Union` is `typing.Union[...]` (and so
      `Optional[X]`, which is `Union[X, NoneType]`). */
  datatype Type =
    | Class(mro: seq<string>)
    | ArrayOf(args: seq<Type>)
    | Union(arms: seq<Type>)

  const NoneType := Class(["NoneType", "object"])
  const AnyType := Class(["Any", "object"])
  const Number := Class(["Number", "object"])
  const String := Class(["String", "object"])
  /** The bare `objects.Array` class, origin of every `Array[...]`. */
  const ArrayClass := Class(["Array", "Generic", "object"])
  /** `typing.Union`, origin of every `Union[...]`, compared as a plain name. */
  const UnionForm := Class(["Union"])

  // A few edges of the catalogue's hierarchy: Executable <: BuildTarget <: Target <: File.
  const File := Class(["File", "object"])
  const Target := Class(["Target", "File", "object"])
  const BuildTarget := Class(["BuildTarget", "Target", "File", "object"])
  const Executable := Class(["Executable", "BuildTarget", "Target", "File", "object"])

  /** `typing.get_origin(T)`: the class behind a generic type; none for a plain class. */
  function Origin(t: Type): Option<seq<string>> {
    match t
    case Class(_) => None
    case ArrayOf(_) => Some(ArrayClass.mro)
    case Union(_) => Some(UnionForm.mro)
  }

  /** `typing.get_args(T)`. */
  function Args(t: Type): seq<Type> {
    match t
    case Class(_) => []
    case ArrayOf(a) => a
    case Union(a) => a
  }

  /** Python's `issubclass` on plain classes: `sup` is `sub` itself or is
      reached from it by following parents. */
  predicate Inherits(sub: seq<string>, sup: seq<string>)
    decreases |sub|
  {
    sub == sup || (|sub| > 0 && Inherits(sub[1..], sup))
  }

  /** Following parents only shortens the resolution order: `Inherits` is the
      suffix relation on resolution orders. */
  lemma {:induction false} InheritsIsSuffix(sub: seq<string>, sup: seq<string>)
    ensures Inherits(sub, sup) <==> |sup| <= |sub| && sub[|sub| - |sup|..] == sup
    decreases |sub|
  {
    if |sub| > 0 {
      InheritsIsSuffix(sub[1..], sup);
      if |sup| <= |sub| - 1 {
        assert sub[1..][|sub| - 1 - |sup|..] == sub[|sub| - |sup|..];
      }
    }
  }

  /** The subclass relation on plain classes is transitive. */
  lemma {:induction false} InheritsTransitive(a: seq<string>, b: seq<string>, c: seq<string>)
    requires Inherits(a, b) && Inherits(b, c)
    ensures Inherits(a, c)
    decreases |a|
  {
    if a != b {
      InheritsTransitive(a[1..], b, c);
    }
  }

  /** util.is_subclass: `issubclass` extended to generic types. Two generic
      types need every argument of `s` to be a subclass of some argument of
      `t`, and origin below origin; a generic and a plain type compare the
      origin with the plain class. */
  function IsSubclass(s: Type, t: Type): bool
    decreases s, 0
  {
    match s
    case Class(sm) =>
      (match t
       case Class(tm) => Inherits(sm, tm)
       case _ => Inherits(sm, Origin(t).value))
    case _ =>
      (match t
       case Class(tm) => Inherits(Origin(s).value, tm)
       case _ =>
         && (forall i :: 0 <= i < |Args(s)| ==> BelowSome(Args(s)[i], Args(t)))
         && Inherits(Origin(s).value, Origin(t).value))
  }

  /** `any(is_subclass(x, u) for u in ts)`. */
  predicate BelowSome(x: Type, ts: seq<Type>)
    decreases x, 1
  {
    exists j :: 0 <= j < |ts| && IsSubclass(x, ts[j])
  }

  /** The plain class a type is compared as when the other side is plain. */
  function PlainMro(t: Type): seq<string> {
    match t
    case Class(m) => m
    case _ => Origin(t).value
  }

  /** Every type is a subclass of itself, generic types included. */
  lemma {:induction false} IsSubclassReflexive(t: Type)
    ensures IsSubclass(t, t)
    decreases t
  {
    if !t.Class? {
      forall i | 0 <= i < |Args(t)| ensures BelowSome(Args(t)[i], Args(t)) {
        IsSubclassReflexive(Args(t)[i]);
      }
    }
  }

  /** On plain classes `is_subclass` is exactly the reflexive-transitive
      parent relation: a class is below itself and below whatever its parent
      is below. */
  lemma PlainSubclassIsParentClosure(s: Type, t: Type)
    requires s.Class? && t.Class?
    ensures IsSubclass(s, t) <==>
      s == t || (|s.mro| > 0 && IsSubclass(Class(s.mro[1..]), t))
  {
  }

  /** A plain class below `s` is below whatever `s` is below. */
  lemma {:induction false} IsSubclassFromBelow(sub: Type, s: Type, x: Type)
    requires sub.Class? && s.Class? && Inherits(sub.mro, s.mro)
    ensures IsSubclass(s, x) ==> IsSubclass(sub, x)
  {
    assert IsSubclass(s, x) == Inherits(s.mro, PlainMro(x));
    assert IsSubclass(sub, x) == Inherits(sub.mro, PlainMro(x));
    if IsSubclass(s, x) {
      InheritsTransitive(sub.mro, s.mro, PlainMro(x));
    }
  }

  /** `is_subclass` is not transitive once generic and plain types mix:
      `Array[String]` is below the bare `Array`, which is below `Array[Number]`,
      yet `Array[String]` is not below `Array[Number]`. */
  lemma IsSubclassNotTransitive()
    ensures IsSubclass(ArrayOf([String]), ArrayClass)
    ensures IsSubclass(ArrayClass, ArrayOf([Number]))
    ensures !IsSubclass(ArrayOf([String]), ArrayOf([Number]))
  {
    assert !Inherits(String.mro, Number.mro) by {
      InheritsIsSuffix(String.mro, Number.mro);
      assert String.mro[0] != Number.mro[0];
    }
    var s, t := ArrayOf([String]), ArrayOf([Number]);
    assert Args(s)[0] == String && Args(t) == [Number];
    assert !IsSubclass(String, Number);
    assert !BelowSome(Args(s)[0], Args(t));
  }

  /** util.is_array_type: whether `t` is among the element types of the array
      type `a`. Union arguments are searched arm by arm; the first nested
      array argument decides the answer on its own. */
  function IsArrayType(a: Type, t: Type): (r: bool)
    ensures r ==> a.ArrayOf?
    decreases a
  {
    a.ArrayOf? && ArgsContain(a.args, t)
  }

  /** The loop of util.is_array_type over the arguments of an array type. */
  function ArgsContain(args: seq<Type>, t: Type): bool
    decreases args
  {
    if args == [] then false
    else
      match args[0]
      case Union(arms) =>
        BelowSome(t, arms) || ArgsContain(args[1..], t)
      case ArrayOf(_) => IsArrayType(args[0], t)
      case Class(_) => IsSubclass(t, args[0]) || ArgsContain(args[1..], t)
  }

  /** util.in_generic_types: whether `t` is one of the generic types of `g`. */
  function InGenericTypes(g: Type, t: Type): (r: bool)
    ensures g.Class? ==> !r
    ensures g.Union? ==> (r <==> exists j :: 0 <= j < |g.arms| && IsSubclass(t, g.arms[j]))
  {
    match g
    case ArrayOf(_) => IsArrayType(g, t)
    case Union(arms) => BelowSome(t, arms)
    case Class(_) => false
  }

  lemma {:induction false} ArgsContainFromBelow(args: seq<Type>, t: Type, sub: Type)
    requires sub.Class? && t.Class? && Inherits(sub.mro, t.mro)
    ensures ArgsContain(args, t) ==> ArgsContain(args, sub)
    decreases args
  {
    if args != [] {
      match args[0]
      case Union(arms) =>
        forall j | 0 <= j < |arms| ensures IsSubclass(t, arms[j]) ==> IsSubclass(sub, arms[j]) {
          IsSubclassFromBelow(sub, t, arms[j]);
        }
        ArgsContainFromBelow(args[1..], t, sub);
      case ArrayOf(inner) =>
        assert ArgsContain(args, t) == ArgsContain(inner, t);
        assert ArgsContain(args, sub) == ArgsContain(inner, sub);
        ArgsContainFromBelow(inner, t, sub);
      case Class(_) =>
        IsSubclassFromBelow(sub, t, args[0]);
        ArgsContainFromBelow(args[1..], t, sub);
    }
  }

  /** A generic type that admits a plain class admits every subclass of it. */
  lemma InGenericTypesFromBelow(g: Type, t: Type, sub: Type)
    requires sub.Class? && t.Class? && Inherits(sub.mro, t.mro)
    ensures InGenericTypes(g, t) ==> InGenericTypes(g, sub)
  {
    match g
    case ArrayOf(args) => ArgsContainFromBelow(args, t, sub);
    case Union(arms) =>
      forall j | 0 <= j < |arms| ensures IsSubclass(t, arms[j]) ==> IsSubclass(sub, arms[j]) {
        IsSubclassFromBelow(sub, t, arms[j]);
      }
    case Class(_) =>
  }

  /** The kinds of `inspect.Parameter`. */
  datatype ParamKind = PositionalOnly | PositionalOrKeyword | VarPositional | KeywordOnly | VarKeyword

  /** An `inspect.Parameter` of a catalogue signature. */
  datatype Param = Param(name: string, annotation: Type, kind: ParamKind, hasDefault: bool)

  /** What Python allows: variadic parameters never carry a default. */
  predicate WellFormedParam(p: Param) {
    (p.kind == VarPositional || p.kind == VarKeyword) ==> !p.hasDefault
  }

  /** util.iskwarg: the parameter is passed by keyword. */
  predicate IsKwarg(p: Param) {
    p.hasDefault || p.kind == KeywordOnly
  }

  /** util.isposonly: the parameter is a `*args` parameter. */
  predicate IsPosOnly(p: Param) {
    p.kind == VarPositional
  }

  /** A `*args` parameter is never passed by keyword. */
  lemma PosOnlyIsNeverKwarg(p: Param)
    requires WellFormedParam(p)
    ensures IsPosOnly(p) ==> !IsKwarg(p)
  {
  }

  /** The condition `re.match(r".*[^_]_", name)`: some character other than
      `_` is followed by `_`, with no line break before that character. */
  predicate HasStemUnderscore(name: string)
    decreases |name|
  {
    |name| >= 2 &&
    ((name[0] != '_' && name[1] == '_') || (name[0] != '\n' && HasStemUnderscore(name[1..])))
  }

  lemma {:induction false} StemHasNonUnderscore(name: string)
    requires HasStemUnderscore(name)
    ensures exists k :: 0 <= k < |name| && name[k] != '_'
    decreases |name|
  {
    if !(name[0] != '_' && name[1] == '_') {
      StemHasNonUnderscore(name[1..]);
      var k :| 0 <= k < |name[1..]| && name[1..][k] != '_';
      assert name[k + 1] != '_';
    }
  }

  /** util.get_name on a name: all trailing underscores go when the pattern
      matches (`assert_` becomes `assert`); otherwise the name is kept. */
  function GetName(name: string): (r: string)
    ensures |r| <= |name| && r == name[..|r|]
    ensures forall k :: |r| <= k < |name| ==> name[k] == '_'
    ensures HasStemUnderscore(name) ==> |r| > 0 && r[|r| - 1] != '_'
    ensures !HasStemUnderscore(name) ==> r == name
  {
    if HasStemUnderscore(name) then
      var r := RStrip(name, {'_'});
      StemHasNonUnderscore(name);
      r
    else name
  }

  /** The `n` consecutive characters from `first` on. */
  function CharRange(first: char, n: nat): (r: string)
    requires first as int + n <= 0xD800
    ensures |r| == n
    ensures forall k :: 0 <= k < n ==> r[k] as int == first as int + k
  {
    seq(n, k requires 0 <= k < n => (first as int + k) as char)
  }

  /** A character is in a range exactly when its code lies between the bounds. */
  lemma CharRangeHas(first: char, n: nat, c: char)
    requires first as int + n <= 0xD800
    ensures c in CharRange(first, n) <==> first as int <= c as int < first as int + n
  {
    if first as int <= c as int < first as int + n {
      assert CharRange(first, n)[c as int - first as int] == c;
    }
  }

  /** A character of `string.ascii_letters`. */
  predicate IsAsciiLetter(c: char) {
    'a' <= c <= 'z' || 'A' <= c <= 'Z'
  }

  /** `string.ascii_lowercase + string.ascii_uppercase`. */
  const Letters: string := CharRange('a', 26) + CharRange('A', 26)

  /** The alphabet of util.varname holds exactly the ASCII letters. */
  lemma LettersAreAscii(c: char)
    ensures c in Letters <==> IsAsciiLetter(c)
  {
    CharRangeHas('a', 26, c);
    CharRangeHas('A', 26, c);
    assert c in Letters <==> c in CharRange('a', 26) || c in CharRange('A', 26);
  }

  /** What util.varname promises: ten ASCII letters. */
  predicate IsVarName(s: string) {
    |s| == 10 && forall k :: 0 <= k < |s| ==> IsAsciiLetter(s[k])
  }

  function LetterDigits(i: nat, n: nat): (r: string)
    ensures |r| == n && forall k :: 0 <= k < n ==> IsAsciiLetter(r[k])
  {
    if n == 0 then []
    else
      LettersAreAscii(Letters[i % 52]);
      [Letters[i % 52]] + LetterDigits(i / 52, n - 1)
  }

  /** util.varname as a deterministic oracle: the `i`-th name handed out. The
      source draws the letters at random; any such draw has this shape. */
  function VarName(i: nat): (r: string)
    ensures IsVarName(r)
  {
    LetterDigits(i, 10)
  }

  /** Names by slot, with no promise about their form: the specification
      functions and lemmas of the generators hold for any such assignment. */
  type NameSource = nat -> string

  /** A source of fresh names: the name util.varname hands out for slot `i`.
      Every name it gives has the form util.varname promises. */
  type NameOracle = f: nat -> string | forall i :: IsVarName(f(i)) witness VarName

  function ClassName(mro: seq<string>): string {
    if |mro| > 0 then mro[0] else ""
  }

  /** util.pretty_print_type: a class by its name, a generic type as
      `Origin[arg,arg,...]`. */
  function PrettyPrintType(t: Type): string
    decreases t, 1
  {
    match t
    case Class(m) => ClassName(m)
    case ArrayOf(a) => "Array[" + Join(",", PrettyPrintAll(a)) + "]"
    case Union(a) => "Union[" + Join(",", PrettyPrintAll(a)) + "]"
  }

  function PrettyPrintAll(ts: seq<Type>): (r: seq<string>)
    ensures |r| == |ts|
    decreases ts, 0
  {
    if ts == [] then [] else [PrettyPrintType(ts[0])] + PrettyPrintAll(ts[1..])
  }

  /** Occurrences of a character. */
  function CountChar(s: string, c: char): nat
    decreases |s|
  {
    if s == [] then 0 else (if s[0] == c then 1 else 0) + CountChar(s[1..], c)
  }

  lemma {:induction false} CountCharAppend(a: string, b: string, c: char)
    ensures CountChar(a + b, c) == CountChar(a, c) + CountChar(b, c)
    decreases |a|
  {
    if a != [] {
      assert (a + b)[1..] == a[1..] + b;
      CountCharAppend(a[1..], b, c);
    } else {
      assert a + b == b;
    }
  }

  /** Class names that cannot be confused with the brackets of generic types. */
  predicate BracketFreeNames(t: Type)
    decreases t
  {
    match t
    case Class(m) => '[' !in ClassName(m) && ']' !in ClassName(m)
    case _ => forall i :: 0 <= i < |Args(t)| ==> BracketFreeNames(Args(t)[i])
  }

  function Balance(s: string): int {
    CountChar(s, '[') - CountChar(s, ']')
  }

  lemma {:induction false} CountCharAbsent(s: string, c: char)
    requires c !in s
    ensures CountChar(s, c) == 0
    decreases |s|
  {
    if s != [] {
      CountCharAbsent(s[1..], c);
    }
  }

  lemma {:induction false} BalanceAppend(a: string, b: string)
    ensures Balance(a + b) == Balance(a) + Balance(b)
  {
    CountCharAppend(a, b, '[');
    CountCharAppend(a, b, ']');
  }

  lemma {:induction false} JoinBalanced(parts: seq<string>)
    requires forall i :: 0 <= i < |parts| ==> Balance(parts[i]) == 0
    ensures Balance(Join(",", parts)) == 0
    decreases |parts|
  {
    if |parts| > 1 {
      JoinBalanced(parts[1..]);
      BalanceAppend(parts[0], ",");
      BalanceAppend(parts[0] + ",", Join(",", parts[1..]));
      assert Balance(",") == 0 by { CountCharAbsent(",", '['); CountCharAbsent(",", ']'); }
    }
  }

  /** Every `[` the pretty printer writes is closed by a `]`. */
  lemma {:induction false} PrettyPrintTypeBalanced(t: Type)
    requires BracketFreeNames(t)
    ensures Balance(PrettyPrintType(t)) == 0
    decreases t, 1
  {
    match t
    case Class(m) =>
      CountCharAbsent(ClassName(m), '[');
      CountCharAbsent(ClassName(m), ']');
    case _ =>
      var origin := if t.ArrayOf? then "Array" else "Union";
      var parts := PrettyPrintAll(Args(t));
      PrettyPrintAllBalanced(Args(t));
      JoinBalanced(parts);
      WrapBalanced(origin, Join(",", parts));
      assert PrettyPrintType(t) == origin + "[" + Join(",", parts) + "]";
  }

  /** A bracket-free origin with a balanced argument list in brackets is balanced. */
  lemma WrapBalanced(origin: string, inner: string)
    requires '[' !in origin && ']' !in origin && Balance(inner) == 0
    ensures Balance(origin + "[" + inner + "]") == 0
  {
    var head := origin + "[";
    BalanceAppend(head, inner);
    BalanceAppend(head + inner, "]");
    assert Balance(head) == 1 by {
      CountCharAbsent(origin, '[');
      CountCharAbsent(origin, ']');
      BalanceAppend(origin, "[");
    }
    assert Balance("]") == -1;
  }

  lemma {:induction false} PrettyPrintAllBalanced(ts: seq<Type>)
    requires forall i :: 0 <= i < |ts| ==> BracketFreeNames(ts[i])
    ensures forall i :: 0 <= i < |ts| ==> Balance(PrettyPrintAll(ts)[i]) == 0
    decreases ts, 0
  {
    if ts != [] {
      PrettyPrintTypeBalanced(ts[0]);
      PrettyPrintAllBalanced(ts[1..]);
      forall i | 0 <= i < |ts| ensures Balance(PrettyPrintAll(ts)[i]) == 0 {
        if i > 0 {
          assert PrettyPrintAll(ts)[i] == PrettyPrintAll(ts[1..])[i - 1];
        }
      }
    }
  }

  /** One parameter as util.pretty_print_func writes it. */
  function PrettyPrintParam(p: Param): string {
    (if IsKwarg(p) then p.name + " : " else "") + PrettyPrintType(p.annotation)
  }

  /** The printed parameters, one per parameter, in order. */
  function ParamTexts(params: seq<Param>): (r: seq<string>)
    ensures |r| == |params|
  {
    seq(|params|, i requires 0 <= i < |params| => PrettyPrintParam(params[i]))
  }

  /** util.pretty_print_func: `name(p1, kw : T2, ...)`. */
  function PrettyPrintFunc(funcName: string, params: seq<Param>): (r: string)
    ensures StartsWith(r, funcName + "(") && r[|r| - 1] == ')'
    ensures params == [] ==> r == funcName + "()"
  {
    var r := funcName + "(" + Join(", ", ParamTexts(params)) + ")";
    assert r[..|funcName| + 1] == funcName + "(";
    r
  }

  /** The text between the parentheses, cut at `", "`, gives back every
      parameter in order, written `name : T` for a keyword parameter and `T`
      otherwise, as long as no printed parameter holds `", "` itself. */
  lemma PrettyPrintFuncParams(funcName: string, params: seq<Param>)
    requires params != []
    requires forall i :: 0 <= i < |params| ==> !Contains(PrettyPrintParam(params[i]), ", ")
    ensures var r := PrettyPrintFunc(funcName, params);
      |r| >= |funcName| + 2 &&
      Split(r[|funcName| + 1..|r| - 1], ", ") == ParamTexts(params)
    ensures forall i :: 0 <= i < |params| ==>
      ParamTexts(params)[i] == (if IsKwarg(params[i]) then params[i].name + " : " else "") + PrettyPrintType(params[i].annotation)
  {
    var texts := ParamTexts(params);
    var inner := Join(", ", texts);
    var r := PrettyPrintFunc(funcName, params);
    assert r == funcName + "(" + inner + ")";
    assert r[|funcName| + 1..|r| - 1] == inner;
    assert ", "[1..] == " ";
    SplitJoin(", ", texts);
  }

  // ---------------------------------------------------------------------
  // util.get_parameter_combinations

  /** The types a parameter fans out to: the arms of a union, otherwise the
      declared type alone. */
  function Arms(p: Param): seq<Type> {
    if p.annotation.Union? then p.annotation.arms else [p.annotation]
  }

  /** The parameter with one concrete annotation; `Any` becomes `Number`. */
  function Concretize(p: Param, arm: Type): Param {
    p.(annotation := if arm == AnyType then Number else arm)
  }

  /** `c` extended by one entry per arm of `p`, in arm order. */
  function Fan(c: seq<Param>, p: Param): (r: seq<seq<Param>>)
    ensures |r| == |Arms(p)|
  {
    seq(|Arms(p)|, k requires 0 <= k < |Arms(p)| => c + [Concretize(p, Arms(p)[k])])
  }

  /** Every combination extended by every arm of `p`, combination-major. */
  function Extend(cs: seq<seq<Param>>, p: Param): seq<seq<Param>>
    decreases |cs|
  {
    if cs == [] then [] else Fan(cs[0], p) + Extend(cs[1..], p)
  }

  /** The combinations of a signature, one parameter at a time. */
  function Combinations(sig: seq<Param>): seq<seq<Param>>
    decreases |sig|
  {
    if sig == [] then [[]]
    else Extend(Combinations(sig[..|sig| - 1]), sig[|sig| - 1])
  }

  lemma {:induction false} ExtendSnoc(cs: seq<seq<Param>>, c: seq<Param>, p: Param)
    ensures Extend(cs + [c], p) == Extend(cs, p) + Fan(c, p)
    decreases |cs|
  {
    if cs == [] {
      assert Extend([c], p) == Fan(c, p) + Extend([], p);
    } else {
      assert (cs + [c])[1..] == cs[1..] + [c];
      ExtendSnoc(cs[1..], c, p);
    }
  }

  /** The Union branch of util.get_parameter_combinations: every combination
      extended by every arm, combination-major. */
  method ExtendByArms(combinations: seq<seq<Param>>, param: Param) returns (newCombinations: seq<seq<Param>>)
    requires param.annotation.Union?
    ensures newCombinations == Extend(combinations, param)
  {
    var arms := param.annotation.arms;
    newCombinations := [];
    for j := 0 to |combinations|
      invariant newCombinations == Extend(combinations[..j], param)
    {
      var combination := combinations[j];
      for k := 0 to |arms|
        invariant newCombinations == Extend(combinations[..j], param) + Fan(combination, param)[..k]
      {
        var newParam := Concretize(param, arms[k]);
        newCombinations := newCombinations + [combination + [newParam]];
        assert Fan(combination, param)[..k + 1] == Fan(combination, param)[..k] + [combination + [newParam]];
      }
      assert combinations[..j + 1] == combinations[..j] + [combination];
      ExtendSnoc(combinations[..j], combination, param);
    }
    assert combinations[..|combinations|] == combinations;
  }

  /** The other branch of util.get_parameter_combinations: the parameter, with
      `Any` read as `Number`, appended to every combination in place. */
  method ExtendBySingle(before: seq<seq<Param>>, param: Param) returns (combinations: seq<seq<Param>>)
    requires !param.annotation.Union?
    ensures combinations == Extend(before, param)
  {
    combinations := before;
    var paramType := param.annotation;
    if paramType == AnyType {
      paramType := Number;
    }
    for j := 0 to |combinations|
      invariant |combinations| == |before|
      invariant combinations[..j] == Extend(before[..j], param)
      invariant combinations[j..] == before[j..]
    {
      var newParam := param.(annotation := paramType);
      assert Fan(before[j], param) == [before[j] + [newParam]];
      ExtendSnoc(before[..j], before[j], param);
      assert before[..j + 1] == before[..j] + [before[j]];
      combinations := combinations[j := combinations[j] + [newParam]];
      assert combinations[..j + 1] == combinations[..j] + [combinations[j]];
    }
    assert before[..|before|] == before;
  }

  /** util.get_parameter_combinations. */
  method GetParameterCombinations(sig: seq<Param>) returns (combinations: seq<seq<Param>>)
    ensures combinations == Combinations(sig)
  {
    combinations := [[]];
    for i := 0 to |sig|
      invariant combinations == Combinations(sig[..i])
    {
      var param := sig[i];
      assert sig[..i + 1][..i] == sig[..i];
      if param.annotation.Union? {
        combinations := ExtendByArms(combinations, param);
      } else {
        combinations := ExtendBySingle(combinations, param);
      }
    }
    assert sig[..|sig|] == sig;
  }

  /** The number of arms of every parameter, multiplied. */
  function Arity(sig: seq<Param>): nat
    decreases |sig|
  {
    if sig == [] then 1 else Arity(sig[..|sig| - 1]) * |Arms(sig[|sig| - 1])|
  }

  lemma {:induction false} ExtendCount(cs: seq<seq<Param>>, p: Param)
    ensures |Extend(cs, p)| == |cs| * |Arms(p)|
    decreases |cs|
  {
    if cs != [] {
      ExtendCount(cs[1..], p);
      assert |cs| * |Arms(p)| == |Arms(p)| + (|cs| - 1) * |Arms(p)|;
    }
  }

  /** A union parameter with k arms multiplies the number of combinations by
      k, any other parameter keeps it: there are as many combinations as the
      product of the union arities. */
  lemma {:induction false} CombinationCount(sig: seq<Param>)
    ensures |Combinations(sig)| == Arity(sig)
    decreases |sig|
  {
    if sig != [] {
      CombinationCount(sig[..|sig| - 1]);
      ExtendCount(Combinations(sig[..|sig| - 1]), sig[|sig| - 1]);
    }
  }

  /** `e` is a possible entry for the declared parameter `p`: `p` with the
      declared type or one arm of its union, `Any` read as `Number`. */
  predicate IsEntryFor(e: Param, p: Param) {
    exists k :: 0 <= k < |Arms(p)| && e == Concretize(p, Arms(p)[k])
  }

  /** `c` has one entry per declared parameter, in order, each a possible entry. */
  predicate IsCombinationOf(c: seq<Param>, sig: seq<Param>) {
    |c| == |sig| && forall i :: 0 <= i < |sig| ==> IsEntryFor(c[i], sig[i])
  }

  lemma {:induction false} InExtend(cs: seq<seq<Param>>, p: Param, c: seq<Param>)
    ensures c in Extend(cs, p) <==> |c| > 0 && c[..|c| - 1] in cs && IsEntryFor(c[|c| - 1], p)
    decreases |cs|
  {
    if cs != [] {
      InExtend(cs[1..], p, c);
      assert c in Fan(cs[0], p) <==> |c| > 0 && c[..|c| - 1] == cs[0] && IsEntryFor(c[|c| - 1], p) by {
        if c in Fan(cs[0], p) {
          var k :| 0 <= k < |Arms(p)| && Fan(cs[0], p)[k] == c;
          assert c[..|c| - 1] == cs[0];
        }
        if |c| > 0 && c[..|c| - 1] == cs[0] && IsEntryFor(c[|c| - 1], p) {
          var k :| 0 <= k < |Arms(p)| && c[|c| - 1] == Concretize(p, Arms(p)[k]);
          assert c == cs[0] + [c[|c| - 1]];
          assert Fan(cs[0], p)[k] == c;
        }
      }
      if |c| > 0 {
        assert c[..|c| - 1] in cs <==> c[..|c| - 1] == cs[0] || c[..|c| - 1] in cs[1..] by {
          assert cs == [cs[0]] + cs[1..];
        }
      }
    }
  }

  /** A combination of a longer signature is one of the shorter signature plus
      an entry for the last parameter. */
  lemma CombinationSnoc(c: seq<Param>, sig: seq<Param>)
    requires |c| > 0 && |sig| > 0
    ensures IsCombinationOf(c, sig) <==>
      IsCombinationOf(c[..|c| - 1], sig[..|sig| - 1]) && IsEntryFor(c[|c| - 1], sig[|sig| - 1])
  {
    var n := |sig| - 1;
    if IsCombinationOf(c[..|c| - 1], sig[..n]) && IsEntryFor(c[|c| - 1], sig[n]) {
      forall i | 0 <= i < |sig|
        ensures IsEntryFor(c[i], sig[i])
      {
        if i < n {
          assert c[i] == c[..|c| - 1][i] && sig[i] == sig[..n][i];
        }
      }
    }
  }

  /** The combinations are exactly the sequences with one possible entry per
      declared parameter, in declaration order: names, kinds and defaults are
      the declared ones, and a `NoneType` arm stays an entry of its own. */
  lemma {:induction false} CombinationsAreAllChoices(sig: seq<Param>, c: seq<Param>)
    ensures c in Combinations(sig) <==> IsCombinationOf(c, sig)
    decreases |sig|
  {
    if sig == [] {
    } else {
      var n := |sig| - 1;
      InExtend(Combinations(sig[..n]), sig[n], c);
      if |c| > 0 {
        CombinationsAreAllChoices(sig[..n], c[..|c| - 1]);
        CombinationSnoc(c, sig);
      }
    }
  }

  /** Each entry keeps the declared name, kind and default; only the
      annotation is narrowed. */
  lemma EntryKeepsDeclaration(e: Param, p: Param)
    requires IsEntryFor(e, p)
    ensures e.name == p.name && e.kind == p.kind && e.hasDefault == p.hasDefault
    ensures e.annotation != AnyType
    ensures p.annotation.Union? ==> e.annotation in p.annotation.arms || (AnyType in p.annotation.arms && e.annotation == Number)
    ensures !p.annotation.Union? ==> e.annotation == (if p.annotation == AnyType then Number else p.annotation)
  {
  }

  /** util.red: the text in the terminal's red. */
  function Red(s: string): string {
    "\U{1B}[91m" + s + "\U{1B}[0m"
  }

  /** util.yellow: the text in the terminal's yellow. */
  function Yellow(s: string): string {
    "\U{1B}[93m" + s + "\U{1B}[0m"
  }
}
