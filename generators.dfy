/** generators.py: the lines that materialise the arguments of one parameter
    combination and the line that calls a function or method with them. */
module Generators {
  import opened Wrappers
  import opened Strings
  import opened Util
  import opened Exceptions
  import opened Templates

  /** generators.magic_methods: the operator methods and how many arguments
      each is called with. */
  const MagicMethods: map<string, nat> := map[
    "__add__" := 1, "__sub__" := 1, "__mult__" := 1, "__div__" := 1,
    "__mod__" := 1, "__getitem__" := 1, "__setitem__" := 2, "__contains__" := 1]

  /** A FunctionGenerator calls a free function; a MethodGenerator calls a
      method on the object named `objName`. */
  datatype Form = FunctionForm | MethodForm(objName: string)

  /** The fields a generator is built with: its name, one parameter
      combination, the key of its special templates, and the parameters that
      already have an object in the build file, by name. */
  datatype Generator = Generator(
    form: Form,
    funcName: string,
    parameters: seq<Param>,
    key: Option<string>,
    existing: map<string, string>)

  // ---------------------------------------------------------------------
  // FunctionGenerator._generate_parameter_lines

  /** What one rendered parameter contributes: at most one materialisation
      line, and the text that stands for the argument. */
  datatype Piece = Piece(line: seq<string>, value: string)

  /** The lines so far and the argument strings so far. */
  datatype Parts = Parts(lines: seq<string>, args: seq<string>)

  /** An argument as it appears in the call: `name : value` for a keyword
      parameter, the bare value otherwise. */
  function Argument(p: Param, value: string): string {
    if IsKwarg(p) then p.name + " : " + value else value
  }

  /** The names drawn for parameter `i`: the first for the template's
      marker, the second for the variable holding the object. */
  function TemplateName(names: NameSource, base: nat, i: nat): string {
    names(base + 2 * i)
  }

  function VariableName(names: NameSource, base: nat, i: nat): string {
    names(base + 2 * i + 1)
  }

  /** The template fetched for parameter `i`. */
  function TemplateFor(g: Generator, cat: Catalogue, names: NameSource, base: nat, i: nat): Result<string, Exception>
    requires i < |g.parameters|
  {
    var p := g.parameters[i];
    GetTemplate(cat, p.annotation, Some(p.name), g.key, TemplateName(names, base, i))
  }

  /** A template fetched for a parameter has no `$RANDOM_STRING$` left: the
      name put in its place is one that util.varname can hand out. */
  lemma FetchedTemplateHasNoMarker(g: Generator, cat: Catalogue, names: NameOracle, base: nat, i: nat)
    requires i < |g.parameters|
    ensures TemplateFor(g, cat, names, base, i).Success? ==>
      !Contains(TemplateFor(g, cat, names, base, i).value, RANDOM_STRING)
  {
    var p := g.parameters[i];
    NoMarkerLeft(cat, p.annotation, Some(p.name), g.key, TemplateName(names, base, i));
  }

  /** The work the loop does for one rendered parameter. */
  function Token(g: Generator, cat: Catalogue, names: NameSource, base: nat, inline: bool, i: nat)
    : (r: Result<Piece, Exception>)
    requires i < |g.parameters|
    ensures r.Failure? <==> TemplateFor(g, cat, names, base, i).Failure?
    ensures r.Failure? ==> r.error == TemplateNotFound(g.parameters[i].annotation)
    ensures r.Success? && g.parameters[i].name in g.existing ==>
      r.value == Piece([], g.existing[g.parameters[i].name])
    ensures r.Success? && g.parameters[i].name !in g.existing && !inline ==>
      var v := VariableName(names, base, i);
      r.value == Piece([v + " = " + TemplateFor(g, cat, names, base, i).value], v)
    ensures r.Success? && g.parameters[i].name !in g.existing && inline ==>
      r.value == Piece([], TemplateFor(g, cat, names, base, i).value)
  {
    var p := g.parameters[i];
    match TemplateFor(g, cat, names, base, i)
    case Failure(e) => Failure(e)
    case Success(tmpl) =>
      if !inline then
        if p.name in g.existing then Success(Piece([], g.existing[p.name]))
        else
          var v := VariableName(names, base, i);
          Success(Piece([v + " = " + tmpl], v))
      else
        Success(Piece([], if p.name in g.existing then g.existing[p.name] else tmpl))
  }

  /** The state of the loop after the first `n` parameters: lines, argument
      strings and the `kwargs_only` flag, or the exception raised. */
  function RenderPrefix(g: Generator, cat: Catalogue, names: NameSource, base: nat, inline: bool, n: nat)
    : Result<(Parts, bool), Exception>
    requires n <= |g.parameters|
  {
    if n == 0 then Success((Parts([], []), false))
    else
      match RenderPrefix(g, cat, names, base, inline, n - 1)
      case Failure(e) => Failure(e)
      case Success(st) =>
        var p := g.parameters[n - 1];
        if p.annotation == NoneType then Success((st.0, true))
        else if st.1 && !IsKwarg(p) then Success(st)
        else
          match Token(g, cat, names, base, inline, n - 1)
          case Failure(e) => Failure(e)
          case Success(pc) => Success((Parts(st.0.lines + pc.line, st.0.args + [Argument(p, pc.value)]), st.1))
  }

  /** The result without the loop's flag. */
  function DropFlag(r: Result<(Parts, bool), Exception>): Result<Parts, Exception> {
    match r
    case Failure(e) => Failure(e)
    case Success(st) => Success(st.0)
  }

  /** Once an exception is raised, later parameters do not matter. */
  lemma {:induction false} RenderFailureSticks(g: Generator, cat: Catalogue, names: NameSource, base: nat, inline: bool, i: nat, n: nat)
    requires i <= n <= |g.parameters|
    requires RenderPrefix(g, cat, names, base, inline, i).Failure?
    ensures RenderPrefix(g, cat, names, base, inline, n) == RenderPrefix(g, cat, names, base, inline, i)
    decreases n - i
  {
    if i < n {
      RenderFailureSticks(g, cat, names, base, inline, i, n - 1);
    }
  }

  /** FunctionGenerator._generate_parameter_lines. */
  method ParameterLines(g: Generator, cat: Catalogue, names: NameOracle, base: nat, inline: bool)
    returns (r: Result<Parts, Exception>)
    ensures r == DropFlag(RenderPrefix(g, cat, names, base, inline, |g.parameters|))
  {
    var lines: seq<string> := [];
    var paramStrings: seq<string> := [];
    var kwargsOnly := false;
    for i := 0 to |g.parameters|
      invariant RenderPrefix(g, cat, names, base, inline, i) == Success((Parts(lines, paramStrings), kwargsOnly))
    {
      var param := g.parameters[i];
      if param.annotation == NoneType {
        kwargsOnly := true;
        continue;
      }
      if kwargsOnly && !IsKwarg(param) {
        continue;
      }
      var fetched := GetTemplate(cat, param.annotation, Some(param.name), g.key, TemplateName(names, base, i));
      assert fetched == TemplateFor(g, cat, names, base, i);
      if fetched.Failure? {
        RenderFailureSticks(g, cat, names, base, inline, i + 1, |g.parameters|);
        return Failure(fetched.error);
      }
      var paramTemplate := fetched.value;
      ghost var argsBefore := paramStrings;
      var paramVar: string;
      var added: seq<string> := [];
      if !inline {
        if param.name in g.existing {
          paramVar := g.existing[param.name];
        } else {
          paramVar := VariableName(names, base, i);
          added := [paramVar + " = " + paramTemplate];
        }
      } else {
        paramVar := if param.name in g.existing then g.existing[param.name] else paramTemplate;
      }
      assert Token(g, cat, names, base, inline, i) == Success(Piece(added, paramVar));
      lines := lines + added;
      if IsKwarg(param) {
        paramStrings := paramStrings + [param.name + " : " + paramVar];
      } else {
        paramStrings := paramStrings + [paramVar];
      }
      assert paramStrings == argsBefore + [Argument(param, paramVar)];
    }
    return Success(Parts(lines, paramStrings));
  }

  // ---------------------------------------------------------------------
  // Which parameters are rendered, stated without the loop's flag

  /** A `NoneType` parameter occurs among the first `n`. */
  predicate SeenNone(ps: seq<Param>, n: nat)
    requires n <= |ps|
  {
    exists j :: 0 <= j < n && ps[j].annotation == NoneType
  }

  /** Parameter `i` is rendered: it is not `NoneType`, and it is a keyword
      parameter or no `NoneType` parameter comes before it. */
  predicate IsRendered(ps: seq<Param>, i: nat)
    requires i < |ps|
  {
    ps[i].annotation != NoneType && (IsKwarg(ps[i]) || !SeenNone(ps, i))
  }

  /** The indices of the rendered parameters among the first `n`, in order. */
  function Chosen(ps: seq<Param>, n: nat): (r: seq<nat>)
    requires n <= |ps|
    ensures forall k :: 0 <= k < |r| ==> r[k] < n
    ensures forall i :: 0 <= i < n ==> (i in r <==> IsRendered(ps, i))
  {
    if n == 0 then []
    else Chosen(ps, n - 1) + (if IsRendered(ps, n - 1) then [n - 1] else [])
  }

  /** The pieces of the given parameters, in order, or the first exception. */
  function Collect(g: Generator, cat: Catalogue, names: NameSource, base: nat, inline: bool, idxs: seq<nat>)
    : (r: Result<seq<Piece>, Exception>)
    requires forall k :: 0 <= k < |idxs| ==> idxs[k] < |g.parameters|
    ensures r.Success? ==> |r.value| == |idxs|
  {
    if idxs == [] then Success([])
    else
      match Collect(g, cat, names, base, inline, idxs[..|idxs| - 1])
      case Failure(e) => Failure(e)
      case Success(pcs) =>
        match Token(g, cat, names, base, inline, idxs[|idxs| - 1])
        case Failure(e) => Failure(e)
        case Success(pc) => Success(pcs + [pc])
  }

  /** The lines of the pieces one after the other, and one argument per piece. */
  function Assemble(ps: seq<Param>, idxs: seq<nat>, pcs: seq<Piece>): Parts
    requires |idxs| == |pcs| && forall k :: 0 <= k < |idxs| ==> idxs[k] < |ps|
  {
    if idxs == [] then Parts([], [])
    else
      var a := Assemble(ps, idxs[..|idxs| - 1], pcs[..|pcs| - 1]);
      var pc := pcs[|pcs| - 1];
      Parts(a.lines + pc.line, a.args + [Argument(ps[idxs[|idxs| - 1]], pc.value)])
  }

  /** `Collect` fails with the first failing parameter's exception and
      otherwise holds exactly one piece per parameter. */
  lemma {:induction false} CollectIsPointwise(g: Generator, cat: Catalogue, names: NameSource, base: nat, inline: bool, idxs: seq<nat>)
    requires forall k :: 0 <= k < |idxs| ==> idxs[k] < |g.parameters|
    ensures Collect(g, cat, names, base, inline, idxs).Success? <==>
      forall k :: 0 <= k < |idxs| ==> Token(g, cat, names, base, inline, idxs[k]).Success?
    ensures Collect(g, cat, names, base, inline, idxs).Success? ==>
      var pcs := Collect(g, cat, names, base, inline, idxs).value;
      |pcs| == |idxs| && forall k :: 0 <= k < |idxs| ==> Token(g, cat, names, base, inline, idxs[k]) == Success(pcs[k])
    ensures Collect(g, cat, names, base, inline, idxs).Failure? ==>
      exists k :: 0 <= k < |idxs| &&
        Token(g, cat, names, base, inline, idxs[k]) == Failure(Collect(g, cat, names, base, inline, idxs).error) &&
        forall j :: 0 <= j < k ==> Token(g, cat, names, base, inline, idxs[j]).Success?
    decreases |idxs|
  {
    if idxs != [] {
      var front := idxs[..|idxs| - 1];
      CollectIsPointwise(g, cat, names, base, inline, front);
      assert forall k :: 0 <= k < |front| ==> front[k] == idxs[k];
    }
  }

  /** The arguments of the assembled call: one per piece, in order. */
  lemma {:induction false} AssembleArgs(ps: seq<Param>, idxs: seq<nat>, pcs: seq<Piece>)
    requires |idxs| == |pcs| && forall k :: 0 <= k < |idxs| ==> idxs[k] < |ps|
    ensures |Assemble(ps, idxs, pcs).args| == |idxs|
    ensures forall k :: 0 <= k < |idxs| ==> Assemble(ps, idxs, pcs).args[k] == Argument(ps[idxs[k]], pcs[k].value)
    decreases |idxs|
  {
    if idxs != [] {
      AssembleArgs(ps, idxs[..|idxs| - 1], pcs[..|pcs| - 1]);
    }
  }

  /** The pieces assembled after a successful `Collect`. */
  function Selected(g: Generator, cat: Catalogue, names: NameSource, base: nat, inline: bool, idxs: seq<nat>)
    : Result<Parts, Exception>
    requires forall k :: 0 <= k < |idxs| ==> idxs[k] < |g.parameters|
  {
    match Collect(g, cat, names, base, inline, idxs)
    case Failure(e) => Failure(e)
    case Success(pcs) => Success(Assemble(g.parameters, idxs, pcs))
  }

  /** The loop's `kwargs_only` flag is set exactly when a `NoneType`
      parameter has been passed. */
  lemma {:induction false} RenderFlag(g: Generator, cat: Catalogue, names: NameSource, base: nat, inline: bool, n: nat)
    requires n <= |g.parameters|
    ensures RenderPrefix(g, cat, names, base, inline, n).Success? ==>
      RenderPrefix(g, cat, names, base, inline, n).value.1 == SeenNone(g.parameters, n)
  {
    if n > 0 {
      RenderFlag(g, cat, names, base, inline, n - 1);
      SeenNoneStep(g.parameters, n - 1);
    }
  }

  /** The loop with its `kwargs_only` flag renders exactly the parameters
      `IsRendered` selects, each as `Token` says, and the flag is set exactly
      when a `NoneType` parameter has been passed. */
  lemma {:induction false} RenderIsSelection(g: Generator, cat: Catalogue, names: NameSource, base: nat, inline: bool, n: nat)
    requires n <= |g.parameters|
    ensures RenderPrefix(g, cat, names, base, inline, n).Success? ==>
      RenderPrefix(g, cat, names, base, inline, n).value.1 == SeenNone(g.parameters, n)
    ensures DropFlag(RenderPrefix(g, cat, names, base, inline, n)) ==
      Selected(g, cat, names, base, inline, Chosen(g.parameters, n))
  {
    RenderFlag(g, cat, names, base, inline, n);
    if n > 0 {
      RenderIsSelection(g, cat, names, base, inline, n - 1);
      RenderSelectionStep(g, cat, names, base, inline, n);
    }
  }

  /** One more parameter: the loop and the selection take the same step. */
  lemma RenderSelectionStep(g: Generator, cat: Catalogue, names: NameSource, base: nat, inline: bool, n: nat)
    requires 0 < n <= |g.parameters|
    requires RenderPrefix(g, cat, names, base, inline, n - 1).Success? ==>
      RenderPrefix(g, cat, names, base, inline, n - 1).value.1 == SeenNone(g.parameters, n - 1)
    requires DropFlag(RenderPrefix(g, cat, names, base, inline, n - 1)) ==
      Selected(g, cat, names, base, inline, Chosen(g.parameters, n - 1))
    ensures DropFlag(RenderPrefix(g, cat, names, base, inline, n)) ==
      Selected(g, cat, names, base, inline, Chosen(g.parameters, n))
  {
    var ps := g.parameters;
    if IsRendered(ps, n - 1) {
      RenderedStep(g, cat, names, base, inline, n);
    } else {
      var prev := RenderPrefix(g, cat, names, base, inline, n - 1);
      assert Chosen(ps, n) == Chosen(ps, n - 1);
      if prev.Success? && ps[n - 1].annotation != NoneType {
        assert prev.value.1 && !IsKwarg(ps[n - 1]);
      }
    }
  }

  /** A rendered parameter adds its own piece, in the loop as in the selection. */
  lemma RenderedStep(g: Generator, cat: Catalogue, names: NameSource, base: nat, inline: bool, n: nat)
    requires 0 < n <= |g.parameters| && IsRendered(g.parameters, n - 1)
    requires RenderPrefix(g, cat, names, base, inline, n - 1).Success? ==>
      RenderPrefix(g, cat, names, base, inline, n - 1).value.1 == SeenNone(g.parameters, n - 1)
    requires DropFlag(RenderPrefix(g, cat, names, base, inline, n - 1)) ==
      Selected(g, cat, names, base, inline, Chosen(g.parameters, n - 1))
    ensures DropFlag(RenderPrefix(g, cat, names, base, inline, n)) ==
      Selected(g, cat, names, base, inline, Chosen(g.parameters, n))
  {
    var ps := g.parameters;
    var c := Chosen(ps, n - 1);
    assert Chosen(ps, n) == c + [n - 1];
    SelectedSnoc(g, cat, names, base, inline, c, n - 1);
    var p := ps[n - 1];
    var t := Token(g, cat, names, base, inline, n - 1);
    match RenderPrefix(g, cat, names, base, inline, n - 1)
    case Failure(e) =>
      assert RenderPrefix(g, cat, names, base, inline, n) == Failure(e);
    case Success(st) =>
      assert !(st.1 && !IsKwarg(p));
      assert Selected(g, cat, names, base, inline, c) == Success(st.0);
      assert RenderPrefix(g, cat, names, base, inline, n) ==
        match t
        case Failure(e) => Failure(e)
        case Success(pc) => Success((Parts(st.0.lines + pc.line, st.0.args + [Argument(p, pc.value)]), st.1));
  }

  lemma SeenNoneStep(ps: seq<Param>, n: nat)
    requires n < |ps|
    ensures SeenNone(ps, n + 1) <==> SeenNone(ps, n) || ps[n].annotation == NoneType
  {
    if ps[n].annotation == NoneType {
      assert 0 <= n < n + 1;
    }
  }

  /** Selecting one more parameter appends its piece. */
  lemma SelectedSnoc(g: Generator, cat: Catalogue, names: NameSource, base: nat, inline: bool, c: seq<nat>, i: nat)
    requires i < |g.parameters| && forall k :: 0 <= k < |c| ==> c[k] < |g.parameters|
    ensures Selected(g, cat, names, base, inline, c + [i]) ==
      match Selected(g, cat, names, base, inline, c)
      case Failure(e) => Failure(e)
      case Success(parts) =>
        match Token(g, cat, names, base, inline, i)
        case Failure(e) => Failure(e)
        case Success(pc) => Success(Parts(parts.lines + pc.line, parts.args + [Argument(g.parameters[i], pc.value)]))
  {
    var c1 := c + [i];
    assert c1[..|c1| - 1] == c;
    match Collect(g, cat, names, base, inline, c)
    case Failure(e) =>
    case Success(pcs) =>
      match Token(g, cat, names, base, inline, i)
      case Failure(e) =>
      case Success(pc) =>
        assert (pcs + [pc])[..|pcs|] == pcs;
  }

  /** Inline rendering writes no materialisation line. */
  lemma {:induction false} InlineHasNoLines(g: Generator, cat: Catalogue, names: NameSource, base: nat, n: nat)
    requires n <= |g.parameters|
    ensures RenderPrefix(g, cat, names, base, true, n).Success? ==>
      RenderPrefix(g, cat, names, base, true, n).value.0.lines == []
  {
    if n > 0 {
      InlineHasNoLines(g, cat, names, base, n - 1);
    }
  }

  // ---------------------------------------------------------------------
  // _generate_call_line

  /** `rv = call` when a return variable is given, else the call alone. */
  function Assign(returnVar: Option<string>, call: string): string {
    if returnVar.Some? then returnVar.value + " = " + call else call
  }

  /** The call of a magic method must have the table's number of arguments. */
  predicate ArityMismatch(g: Generator, args: seq<string>) {
    g.form.MethodForm? && g.funcName in MagicMethods && |args| != MagicMethods[g.funcName]
  }

  /** The infix operator of a binary magic method. */
  function OperatorOf(name: string): (r: Option<string>)
    ensures r.Some? ==> name in MagicMethods && MagicMethods[name] == 1
  {
    if name == "__add__" then Some(" + ")
    else if name == "__sub__" then Some(" - ")
    else if name == "__mult__" then Some(" * ")
    else if name == "__div__" then Some(" / ")
    else if name == "__mod__" then Some(" % ")
    else None
  }

  /** The call expression: `name(a,b)` for a function; for a method the
      operator form of a magic name, otherwise `obj.name(a,b)`. */
  function CallExpr(g: Generator, args: seq<string>): string
    requires !ArityMismatch(g, args)
  {
    match g.form
    case FunctionForm => g.funcName + "(" + Join(",", args) + ")"
    case MethodForm(obj) =>
      if OperatorOf(g.funcName).Some? then obj + OperatorOf(g.funcName).value + args[0]
      else if g.funcName == "__getitem__" then obj + "[" + args[0] + "]"
      else if g.funcName == "__setitem__" then obj + "[" + args[0] + "] = " + args[1]
      else if g.funcName == "__contains__" then args[0] + " in " + obj
      else obj + "." + g.funcName + "(" + Join(",", args) + ")"
  }

  /** FunctionGenerator._generate_call_line and MethodGenerator._generate_call_line. */
  function CallLine(g: Generator, args: seq<string>, returnVar: Option<string>): (r: Result<string, Exception>)
    ensures r.Failure? <==> ArityMismatch(g, args)
    ensures r.Failure? ==> r.error.ValueError?
    ensures r.Success? && returnVar.Some? ==> StartsWith(r.value, returnVar.value + " = ")
  {
    if ArityMismatch(g, args) then
      Failure(ValueError(g.funcName + " must be called with exactly 1 argument (not " + NatToDecimal(|args|) + ")."))
    else
      var r := Assign(returnVar, CallExpr(g, args));
      assert returnVar.Some? ==> r[..|returnVar.value + " = "|] == returnVar.value + " = ";
      Success(r)
  }

  /** A method that is not magic is called like the function `obj.name`. */
  lemma MethodCallIsQualifiedCall(g: Generator, args: seq<string>, returnVar: Option<string>)
    requires g.form.MethodForm? && g.funcName !in MagicMethods
    ensures CallLine(g, args, returnVar) ==
      CallLine(g.(form := FunctionForm, funcName := g.form.objName + "." + g.funcName), args, returnVar)
  {
    var obj := g.form.objName;
    assert obj + "." + g.funcName + "(" + Join(",", args) + ")" == (obj + "." + g.funcName) + "(" + Join(",", args) + ")";
  }

  lemma ContainsInContext(a: string, b: string, c: string, pat: string)
    requires Contains(b, pat)
    ensures Contains(a + b + c, pat)
  {
    if |pat| > 0 {
      var i := IndexOf(b, pat).value;
      var s := a + b + c;
      assert s[|a| + i..|a| + i + |pat|] == b[i..i + |pat|];
      ContainsAt(s, pat, |a| + i);
    } else {
      assert StartsWith(a + b + c, pat);
    }
  }

  lemma ContainsSelf(s: string)
    ensures Contains(s, s)
  {
    assert StartsWith(s, s);
  }

  /** Every part of a join occurs in it. */
  lemma {:induction false} JoinContainsParts(sep: string, parts: seq<string>, k: nat)
    requires k < |parts|
    ensures Contains(Join(sep, parts), parts[k])
    decreases |parts|
  {
    if |parts| == 1 {
      ContainsSelf(parts[0]);
    } else if k == 0 {
      ContainsSelf(parts[0]);
      ContainsInContext("", parts[0], sep + Join(sep, parts[1..]), parts[0]);
      assert "" + parts[0] + (sep + Join(sep, parts[1..])) == Join(sep, parts);
    } else {
      JoinContainsParts(sep, parts[1..], k - 1);
      ContainsInContext(parts[0] + sep, Join(sep, parts[1..]), "", parts[k]);
      assert parts[0] + sep + Join(sep, parts[1..]) + "" == Join(sep, parts);
    }
  }

  /** Each argument occurs in the call expression. */
  lemma CallExprMentionsArgument(g: Generator, args: seq<string>, k: nat)
    requires !ArityMismatch(g, args) && k < |args|
    ensures Contains(CallExpr(g, args), args[k])
  {
    var call := CallExpr(g, args);
    var name := g.funcName;
    ContainsSelf(args[k]);
    if g.form.FunctionForm? {
      JoinContainsParts(",", args, k);
      ContainsInContext(name + "(", Join(",", args), ")", args[k]);
    } else {
      var obj := g.form.objName;
      if OperatorOf(name).Some? {
        ContainsInContext(obj + OperatorOf(name).value, args[k], "", args[k]);
        assert obj + OperatorOf(name).value + args[k] + "" == call;
      } else if name == "__getitem__" {
        ContainsInContext(obj + "[", args[k], "]", args[k]);
      } else if name == "__setitem__" {
        if k == 0 {
          ContainsInContext(obj + "[", args[0], "] = " + args[1], args[0]);
          assert obj + "[" + args[0] + ("] = " + args[1]) == call;
        } else {
          assert MagicMethods["__setitem__"] == 2;
          ContainsInContext(obj + "[" + args[0] + "] = ", args[1], "", args[1]);
          assert obj + "[" + args[0] + "] = " + args[1] + "" == call;
        }
      } else if name == "__contains__" {
        ContainsInContext("", args[k], " in " + obj, args[k]);
        assert "" + args[k] + (" in " + obj) == call;
      } else {
        JoinContainsParts(",", args, k);
        ContainsInContext(obj + "." + name + "(", Join(",", args), ")", args[k]);
      }
    }
  }

  /** A method's call expression names its object. */
  lemma CallExprMentionsObject(g: Generator, args: seq<string>)
    requires !ArityMismatch(g, args) && g.form.MethodForm?
    ensures Contains(CallExpr(g, args), g.form.objName)
  {
    var call := CallExpr(g, args);
    var obj := g.form.objName;
    ContainsSelf(obj);
    if g.funcName == "__contains__" {
      assert MagicMethods["__contains__"] == 1;
      ContainsInContext(args[0] + " in ", obj, "", obj);
      assert args[0] + " in " + obj + "" == call;
    } else {
      assert call == obj + call[|obj|..];
      ContainsInContext("", obj, call[|obj|..], obj);
    }
  }

  /** No argument is dropped from a call line, and a method call names its
      object. */
  lemma CallMentionsArguments(g: Generator, args: seq<string>, returnVar: Option<string>)
    requires CallLine(g, args, returnVar).Success?
    ensures forall k :: 0 <= k < |args| ==> Contains(CallLine(g, args, returnVar).value, args[k])
    ensures g.form.MethodForm? ==> Contains(CallLine(g, args, returnVar).value, g.form.objName)
  {
    var call := CallExpr(g, args);
    var pre := if returnVar.Some? then returnVar.value + " = " else "";
    assert CallLine(g, args, returnVar).value == pre + call + "";
    forall k | 0 <= k < |args|
      ensures Contains(CallLine(g, args, returnVar).value, args[k])
    {
      CallExprMentionsArgument(g, args, k);
      ContainsInContext(pre, call, "", args[k]);
    }
    if g.form.MethodForm? {
      CallExprMentionsObject(g, args);
      ContainsInContext(pre, call, "", g.form.objName);
    }
  }

  // ---------------------------------------------------------------------
  // generate_lines

  /** FunctionGenerator.generate_lines: the parameter lines, then the call. */
  function Generate(g: Generator, cat: Catalogue, names: NameSource, base: nat, returnVar: Option<string>, inline: bool)
    : Result<seq<string>, Exception>
  {
    match DropFlag(RenderPrefix(g, cat, names, base, inline, |g.parameters|))
    case Failure(e) => Failure(e)
    case Success(parts) =>
      match CallLine(g, parts.args, returnVar)
      case Failure(e) => Failure(e)
      case Success(call) => Success(parts.lines + [call])
  }

  method GenerateLines(g: Generator, cat: Catalogue, names: NameOracle, base: nat, returnVar: Option<string>, inline: bool)
    returns (r: Result<seq<string>, Exception>)
    ensures r == Generate(g, cat, names, base, returnVar, inline)
  {
    var rendered := ParameterLines(g, cat, names, base, inline);
    if rendered.Failure? {
      return Failure(rendered.error);
    }
    var call := CallLine(g, rendered.value.args, returnVar);
    if call.Failure? {
      return Failure(call.error);
    }
    var lines := rendered.value.lines + [call.value];
    return Success(lines);
  }

  /** The generated lines end with the call of the rendered arguments and
      start with the materialisation lines of the selected parameters; inline
      generation yields the call alone. The only exceptions are a missing
      template and a magic arity mismatch. */
  lemma GenerateShape(g: Generator, cat: Catalogue, names: NameSource, base: nat, returnVar: Option<string>, inline: bool)
    ensures var r := Generate(g, cat, names, base, returnVar, inline);
      var sel := Selected(g, cat, names, base, inline, Chosen(g.parameters, |g.parameters|));
      && (r.Success? ==>
           && sel.Success?
           && |r.value| == |sel.value.lines| + 1
           && r.value[..|sel.value.lines|] == sel.value.lines
           && CallLine(g, sel.value.args, returnVar) == Success(r.value[|r.value| - 1])
           && (inline ==> |r.value| == 1))
      && (r.Failure? ==> r.error.TemplateNotFound? || r.error.ValueError?)
  {
    RenderIsSelection(g, cat, names, base, inline, |g.parameters|);
    InlineHasNoLines(g, cat, names, base, |g.parameters|);
    var sel := Selected(g, cat, names, base, inline, Chosen(g.parameters, |g.parameters|));
    if sel.Failure? {
      CollectIsPointwise(g, cat, names, base, inline, Chosen(g.parameters, |g.parameters|));
    }
  }

  // ---------------------------------------------------------------------
  // ReturnTypeGenerator.generate_lines

  /** A multimethod of the type under test: its name, the key of its special
      templates, and the signatures of its overloads. */
  datatype MethodEntry = MethodEntry(name: string, key: string, overloads: seq<seq<Param>>)

  /** The lines so far and the number of names drawn so far. */
  datatype Acc = Acc(lines: seq<string>, drawn: nat)

  /** Methods whose special templates name an object of their own are skipped. */
  predicate Skipped(cat: Catalogue, m: MethodEntry) {
    m.key in cat.special && NameKey(OBJECT) in cat.special[m.key]
  }

  /** The non-capturing MethodGenerator of one combination. */
  function CheckOf(objName: string, m: MethodEntry, combo: seq<Param>): Generator {
    Generator(MethodForm(objName), m.name, combo, Some(m.key), map[])
  }

  /** One generator's lines appended to the accumulator. */
  function AddCheck(cat: Catalogue, names: NameSource, objName: string, m: MethodEntry, combo: seq<Param>, acc: Acc)
    : Result<Acc, Exception>
  {
    match Generate(CheckOf(objName, m, combo), cat, names, acc.drawn, None, false)
    case Failure(e) => Failure(e)
    case Success(ls) => Success(Acc(acc.lines + ls, acc.drawn + 2 * |combo|))
  }

  function AddCombos(cat: Catalogue, names: NameSource, objName: string, m: MethodEntry, combos: seq<seq<Param>>, start: Result<Acc, Exception>)
    : Result<Acc, Exception>
    decreases |combos|
  {
    if combos == [] then start
    else
      match AddCombos(cat, names, objName, m, combos[..|combos| - 1], start)
      case Failure(e) => Failure(e)
      case Success(acc) => AddCheck(cat, names, objName, m, combos[|combos| - 1], acc)
  }

  function AddOverloads(cat: Catalogue, names: NameSource, objName: string, m: MethodEntry, sigs: seq<seq<Param>>, start: Result<Acc, Exception>)
    : Result<Acc, Exception>
    decreases |sigs|
  {
    if sigs == [] then start
    else
      AddCombos(cat, names, objName, m, Combinations(sigs[|sigs| - 1]),
        AddOverloads(cat, names, objName, m, sigs[..|sigs| - 1], start))
  }

  function AddMethods(cat: Catalogue, names: NameSource, objName: string, ms: seq<MethodEntry>, start: Result<Acc, Exception>)
    : Result<Acc, Exception>
    decreases |ms|
  {
    if ms == [] then start
    else
      var before := AddMethods(cat, names, objName, ms[..|ms| - 1], start);
      var m := ms[|ms| - 1];
      if Skipped(cat, m) then before else AddOverloads(cat, names, objName, m, m.overloads, before)
  }

  lemma {:induction false} CombosFailure(cat: Catalogue, names: NameSource, objName: string, m: MethodEntry, combos: seq<seq<Param>>, e: Exception)
    ensures AddCombos(cat, names, objName, m, combos, Failure(e)) == Failure(e)
    decreases |combos|
  {
    if combos != [] {
      CombosFailure(cat, names, objName, m, combos[..|combos| - 1], e);
    }
  }

  lemma {:induction false} OverloadsFailure(cat: Catalogue, names: NameSource, objName: string, m: MethodEntry, sigs: seq<seq<Param>>, e: Exception)
    ensures AddOverloads(cat, names, objName, m, sigs, Failure(e)) == Failure(e)
    decreases |sigs|
  {
    if sigs != [] {
      OverloadsFailure(cat, names, objName, m, sigs[..|sigs| - 1], e);
      CombosFailure(cat, names, objName, m, Combinations(sigs[|sigs| - 1]), e);
    }
  }

  lemma {:induction false} MethodsFailure(cat: Catalogue, names: NameSource, objName: string, ms: seq<MethodEntry>, e: Exception)
    ensures AddMethods(cat, names, objName, ms, Failure(e)) == Failure(e)
    decreases |ms|
  {
    if ms != [] {
      MethodsFailure(cat, names, objName, ms[..|ms| - 1], e);
      var m := ms[|ms| - 1];
      OverloadsFailure(cat, names, objName, m, m.overloads, e);
    }
  }

  /** A failure on a prefix of the combinations is the failure of them all. */
  lemma {:induction false} CombosPrefixFailure(cat: Catalogue, names: NameSource, objName: string, m: MethodEntry, combos: seq<seq<Param>>, k: nat, start: Result<Acc, Exception>)
    requires k <= |combos|
    requires AddCombos(cat, names, objName, m, combos[..k], start).Failure?
    ensures AddCombos(cat, names, objName, m, combos, start) == AddCombos(cat, names, objName, m, combos[..k], start)
    decreases |combos| - k
  {
    if k < |combos| {
      var front := combos[..|combos| - 1];
      assert front[..k] == combos[..k];
      CombosPrefixFailure(cat, names, objName, m, front, k, start);
    } else {
      assert combos[..k] == combos;
    }
  }

  lemma {:induction false} OverloadsPrefixFailure(cat: Catalogue, names: NameSource, objName: string, m: MethodEntry, sigs: seq<seq<Param>>, k: nat, start: Result<Acc, Exception>)
    requires k <= |sigs|
    requires AddOverloads(cat, names, objName, m, sigs[..k], start).Failure?
    ensures AddOverloads(cat, names, objName, m, sigs, start) == AddOverloads(cat, names, objName, m, sigs[..k], start)
    decreases |sigs| - k
  {
    if k < |sigs| {
      var front := sigs[..|sigs| - 1];
      assert front[..k] == sigs[..k];
      OverloadsPrefixFailure(cat, names, objName, m, front, k, start);
      CombosFailure(cat, names, objName, m, Combinations(sigs[|sigs| - 1]), AddOverloads(cat, names, objName, m, sigs[..k], start).error);
    } else {
      assert sigs[..k] == sigs;
    }
  }

  lemma {:induction false} MethodsPrefixFailure(cat: Catalogue, names: NameSource, objName: string, ms: seq<MethodEntry>, k: nat, start: Result<Acc, Exception>)
    requires k <= |ms|
    requires AddMethods(cat, names, objName, ms[..k], start).Failure?
    ensures AddMethods(cat, names, objName, ms, start) == AddMethods(cat, names, objName, ms[..k], start)
    decreases |ms| - k
  {
    if k < |ms| {
      var front := ms[..|ms| - 1];
      assert front[..k] == ms[..k];
      MethodsPrefixFailure(cat, names, objName, front, k, start);
      var m := ms[|ms| - 1];
      OverloadsFailure(cat, names, objName, m, m.overloads, AddMethods(cat, names, objName, ms[..k], start).error);
    } else {
      assert ms[..k] == ms;
    }
  }

  /** ReturnTypeGenerator.generate_lines, the methods of the type under test
      given in the order the source enumerates them. */
  function ReturnTypeLines(cat: Catalogue, names: NameSource, objName: string, ms: seq<MethodEntry>): Result<seq<string>, Exception> {
    match AddMethods(cat, names, objName, ms, Success(Acc([], 0)))
    case Failure(e) => Failure(e)
    case Success(acc) => Success(acc.lines)
  }

  method ReturnTypeGenerateLines(cat: Catalogue, names: NameOracle, objName: string, ms: seq<MethodEntry>)
    returns (r: Result<seq<string>, Exception>)
    ensures r == ReturnTypeLines(cat, names, objName, ms)
  {
    var init: Result<Acc, Exception> := Success(Acc([], 0));
    var acc := Acc([], 0);
    for i := 0 to |ms|
      invariant AddMethods(cat, names, objName, ms[..i], init) == Success(acc)
    {
      var m := ms[i];
      assert ms[..i + 1][..i] == ms[..i];
      if Skipped(cat, m) {
        continue;
      }
      var next := MethodLines(cat, names, objName, m, acc);
      if next.Failure? {
        MethodsPrefixFailure(cat, names, objName, ms, i + 1, init);
        return Failure(next.error);
      }
      acc := next.value;
    }
    assert ms[..|ms|] == ms;
    return Success(acc.lines);
  }

  /** One more overload: its combinations continue from what the earlier overloads built. */
  lemma OverloadsStep(cat: Catalogue, names: NameSource, objName: string, m: MethodEntry, sigs: seq<seq<Param>>, j: nat, start: Acc, acc: Acc)
    requires j < |sigs|
    requires AddOverloads(cat, names, objName, m, sigs[..j], Success(start)) == Success(acc)
    ensures AddOverloads(cat, names, objName, m, sigs[..j + 1], Success(start))
      == AddCombos(cat, names, objName, m, Combinations(sigs[j]), Success(acc))
  {
    assert sigs[..j + 1][..j] == sigs[..j];
  }

  /** The loop over the overloads of one multimethod. */
  method MethodLines(cat: Catalogue, names: NameOracle, objName: string, m: MethodEntry, start: Acc)
    returns (r: Result<Acc, Exception>)
    ensures r == AddOverloads(cat, names, objName, m, m.overloads, Success(start))
  {
    var acc := start;
    for j := 0 to |m.overloads|
      invariant AddOverloads(cat, names, objName, m, m.overloads[..j], Success(start)) == Success(acc)
    {
      OverloadsStep(cat, names, objName, m, m.overloads, j, start, acc);
      var combinations := GetParameterCombinations(m.overloads[j]);
      var next := CombinationLines(cat, names, objName, m, combinations, acc);
      if next.Failure? {
        OverloadsPrefixFailure(cat, names, objName, m, m.overloads, j + 1, Success(start));
        return Failure(next.error);
      }
      acc := next.value;
    }
    assert m.overloads[..|m.overloads|] == m.overloads;
    return Success(acc);
  }

  /** One combination's check appended to the accumulator. */
  method AddCheckLines(cat: Catalogue, names: NameOracle, objName: string, m: MethodEntry, combo: seq<Param>, acc: Acc)
    returns (r: Result<Acc, Exception>)
    ensures r == AddCheck(cat, names, objName, m, combo, acc)
  {
    var generated := GenerateLines(CheckOf(objName, m, combo), cat, names, acc.drawn, None, false);
    if generated.Failure? {
      return Failure(generated.error);
    }
    return Success(Acc(acc.lines + generated.value, acc.drawn + 2 * |combo|));
  }

  /** The loop over the parameter combinations of one overload. */
  method CombinationLines(cat: Catalogue, names: NameOracle, objName: string, m: MethodEntry, combinations: seq<seq<Param>>, start: Acc)
    returns (r: Result<Acc, Exception>)
    ensures r == AddCombos(cat, names, objName, m, combinations, Success(start))
  {
    var lines := start.lines;
    var drawn: nat := start.drawn;
    for k := 0 to |combinations|
      invariant AddCombos(cat, names, objName, m, combinations[..k], Success(start)) == Success(Acc(lines, drawn))
    {
      assert combinations[..k + 1][..k] == combinations[..k];
      var added := AddCheckLines(cat, names, objName, m, combinations[k], Acc(lines, drawn));
      if added.Failure? {
        CombosPrefixFailure(cat, names, objName, m, combinations, k + 1, Success(start));
        return Failure(added.error);
      }
      lines, drawn := added.value.lines, added.value.drawn;
    }
    assert combinations[..|combinations|] == combinations;
    return Success(Acc(lines, drawn));
  }

  /** The methods that are not skipped, in order. */
  function Unskipped(cat: Catalogue, ms: seq<MethodEntry>): (r: seq<MethodEntry>)
    ensures forall k :: 0 <= k < |r| ==> !Skipped(cat, r[k])
    decreases |ms|
  {
    if ms == [] then []
    else
      Unskipped(cat, ms[..|ms| - 1]) + (if Skipped(cat, ms[|ms| - 1]) then [] else [ms[|ms| - 1]])
  }

  /** Skipped methods contribute nothing: the lines are those of the other
      methods alone. */
  lemma {:induction false} SkippedContributeNothing(cat: Catalogue, names: NameSource, objName: string, ms: seq<MethodEntry>, start: Result<Acc, Exception>)
    ensures AddMethods(cat, names, objName, ms, start) == AddMethods(cat, names, objName, Unskipped(cat, ms), start)
    decreases |ms|
  {
    if ms != [] {
      var front := ms[..|ms| - 1];
      var m := ms[|ms| - 1];
      SkippedContributeNothing(cat, names, objName, front, start);
      var u := Unskipped(cat, front);
      if Skipped(cat, m) {
        assert Unskipped(cat, ms) == u;
      } else {
        var u1 := u + [m];
        assert Unskipped(cat, ms) == u1;
        assert u1[..|u1| - 1] == u;
        assert AddMethods(cat, names, objName, u1, start) ==
          AddOverloads(cat, names, objName, m, m.overloads, AddMethods(cat, names, objName, u, start));
      }
    }
  }

  /** The lines of a list of methods are those of its first part followed by
      those of the rest. */
  lemma {:induction false} AddMethodsAppend(cat: Catalogue, names: NameSource, objName: string, ms1: seq<MethodEntry>, ms2: seq<MethodEntry>, start: Result<Acc, Exception>)
    ensures AddMethods(cat, names, objName, ms1 + ms2, start) ==
      AddMethods(cat, names, objName, ms2, AddMethods(cat, names, objName, ms1, start))
    decreases |ms2|
  {
    if ms2 == [] {
      assert ms1 + ms2 == ms1;
    } else {
      var ms := ms1 + ms2;
      assert ms[..|ms| - 1] == ms1 + ms2[..|ms2| - 1];
      AddMethodsAppend(cat, names, objName, ms1, ms2[..|ms2| - 1], start);
    }
  }

  /** Lines are only ever appended: earlier lines stay as they were. */
  lemma {:induction false} CombosOnlyAppend(cat: Catalogue, names: NameSource, objName: string, m: MethodEntry, combos: seq<seq<Param>>, a: Acc)
    ensures AddCombos(cat, names, objName, m, combos, Success(a)).Success? ==>
      a.lines <= AddCombos(cat, names, objName, m, combos, Success(a)).value.lines
    decreases |combos|
  {
    if combos != [] {
      CombosOnlyAppend(cat, names, objName, m, combos[..|combos| - 1], a);
    }
  }

  lemma {:induction false} OverloadsOnlyAppend(cat: Catalogue, names: NameSource, objName: string, m: MethodEntry, sigs: seq<seq<Param>>, a: Acc)
    ensures AddOverloads(cat, names, objName, m, sigs, Success(a)).Success? ==>
      a.lines <= AddOverloads(cat, names, objName, m, sigs, Success(a)).value.lines
    decreases |sigs|
  {
    if sigs != [] {
      var front := AddOverloads(cat, names, objName, m, sigs[..|sigs| - 1], Success(a));
      OverloadsOnlyAppend(cat, names, objName, m, sigs[..|sigs| - 1], a);
      match front
      case Failure(e) =>
        CombosFailure(cat, names, objName, m, Combinations(sigs[|sigs| - 1]), e);
      case Success(b) =>
        CombosOnlyAppend(cat, names, objName, m, Combinations(sigs[|sigs| - 1]), b);
    }
  }

  lemma {:induction false} ReturnTypeLinesOnlyAppend(cat: Catalogue, names: NameSource, objName: string, ms: seq<MethodEntry>, a: Acc)
    ensures AddMethods(cat, names, objName, ms, Success(a)).Success? ==>
      a.lines <= AddMethods(cat, names, objName, ms, Success(a)).value.lines
    decreases |ms|
  {
    if ms != [] {
      var front := AddMethods(cat, names, objName, ms[..|ms| - 1], Success(a));
      ReturnTypeLinesOnlyAppend(cat, names, objName, ms[..|ms| - 1], a);
      var m := ms[|ms| - 1];
      if !Skipped(cat, m) {
        match front
        case Failure(e) =>
          OverloadsFailure(cat, names, objName, m, m.overloads, e);
        case Success(b) =>
          OverloadsOnlyAppend(cat, names, objName, m, m.overloads, b);
      }
    }
  }
}
