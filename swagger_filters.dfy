/**
 The two Swagger operation filters of the Kudu web service. Each rewrites the
 description of one API operation in place: AddFileParamTypes marks the
 upload endpoints as taking a multipart file, NoReservedParam drops the
 parameters named "arguments" (a reserved word in JavaScript clients).
 The filters are registered in that order, and ApplyOperationFilters runs
 them as the documentation generator does.
 */
module SwaggerFilters {
  import opened Wrappers

  /** A Swagger parameter, reduced to the fields the filters read or write. */
  datatype Parameter = Parameter(name: string, location: string, required: bool, schemaType: Option<string>)

  /** The parameter AddFileParamTypes puts at the front of the list. */
  const FileParam: Parameter := Parameter("file", "body", true, Some("file"))
  const MultipartFormData: string := "multipart/form-data"
  const ZipPushDeployId: string := "PushDeployment_ZipPushDeploy"
  const PutItemSuffix: string := "_PutItem"
  const ReservedName: string := "arguments"

  /** An operation description: its id, the content types it consumes and its
      parameter list, which the generator may leave null. */
  class Operation {
    var operationId: string
    var consumes: seq<string>
    var parameters: Option<seq<Parameter>>

    constructor (operationId: string, consumes: seq<string>, parameters: Option<seq<Parameter>>)
      ensures this.operationId == operationId && this.consumes == consumes && this.parameters == parameters
    {
      this.operationId := operationId;
      this.consumes := consumes;
      this.parameters := parameters;
    }
  }

  /** `String.EndsWith`, compared character by character. */
  predicate EndsWith(s: string, suffix: string)
    ensures EndsWith(s, suffix) <==>
      |suffix| <= |s| && forall k :: 0 <= k < |suffix| ==> s[|s| - |suffix| + k] == suffix[k]
  {
    |suffix| <= |s| && s[|s| - |suffix|..] == suffix
  }

  /** The two matching ids are disjoint: the ZipPushDeploy id is not a PutItem id. */
  lemma ZipPushDeployIsNotPutItem()
    ensures !EndsWith(ZipPushDeployId, PutItemSuffix)
  {
  }

  // ---------------------------------------------------------------------------
  // The list operations the filters use

  /** `list[0] = p`: the first element replaced, the rest and the length kept. */
  function ReplaceFirst(ps: seq<Parameter>, p: Parameter): (r: seq<Parameter>)
    requires |ps| > 0
    ensures |r| == |ps| && r[0] == p && r[1..] == ps[1..]
  {
    ps[0 := p]
  }

  /** `list.Insert(i, p)`: p lands at index i, the elements around it keep their order. */
  function InsertAt(ps: seq<Parameter>, i: nat, p: Parameter): (r: seq<Parameter>)
    requires i <= |ps|
    ensures |r| == |ps| + 1 && r[i] == p
    ensures r[..i] == ps[..i] && r[i + 1..] == ps[i..]
  {
    ps[..i] + [p] + ps[i..]
  }

  /** `list.Where(p => p.name != "arguments")`: every other parameter is kept, with
      its multiplicity, and no reserved one is left. */
  function WithoutReserved(ps: seq<Parameter>): (r: seq<Parameter>)
    ensures |r| <= |ps|
    ensures forall i :: 0 <= i < |r| ==> r[i].name != ReservedName
    ensures forall p: Parameter :: p.name != ReservedName ==> multiset(r)[p] == multiset(ps)[p]
  {
    if ps == [] then []
    else
      assert ps == [ps[0]] + ps[1..];
      if ps[0].name == ReservedName then WithoutReserved(ps[1..])
      else [ps[0]] + WithoutReserved(ps[1..])
  }

  /** The filter keeps relative order: it distributes over concatenation. */
  lemma {:induction false} WithoutReservedConcat(a: seq<Parameter>, b: seq<Parameter>)
    ensures WithoutReserved(a + b) == WithoutReserved(a) + WithoutReserved(b)
  {
    if a == [] {
      assert a + b == b;
    } else {
      assert (a + b)[0] == a[0] && (a + b)[1..] == a[1..] + b;
      WithoutReservedConcat(a[1..], b);
    }
  }

  /** A list with no reserved name passes through unchanged. */
  lemma {:induction false} WithoutReservedKeepsClean(ps: seq<Parameter>)
    requires forall i :: 0 <= i < |ps| ==> ps[i].name != ReservedName
    ensures WithoutReserved(ps) == ps
  {
    if ps != [] {
      WithoutReservedKeepsClean(ps[1..]);
    }
  }

  /** Nothing is lost exactly when nothing was reserved. */
  lemma {:induction false} WithoutReservedShrinks(ps: seq<Parameter>)
    ensures |WithoutReserved(ps)| == |ps| <==> forall i :: 0 <= i < |ps| ==> ps[i].name != ReservedName
  {
    if ps != [] {
      var tail := ps[1..];
      WithoutReservedShrinks(tail);
      assert (forall i :: 0 <= i < |ps| ==> ps[i].name != ReservedName)
        <==> ps[0].name != ReservedName && forall j :: 0 <= j < |tail| ==> tail[j].name != ReservedName
      by {
        forall j | 0 <= j < |tail| ensures tail[j] == ps[j + 1] { }
      }
    }
  }

  lemma WithoutReservedIdempotent(ps: seq<Parameter>)
    ensures WithoutReserved(WithoutReserved(ps)) == WithoutReserved(ps)
  {
    WithoutReservedKeepsClean(WithoutReserved(ps));
  }

  // ---------------------------------------------------------------------------
  // AddFileParamTypes

  /** Whether AddFileParamTypes.Apply runs to the end. It indexes a ZipPushDeploy
      parameter list and inserts into a PutItem one without checking them: a null
      list throws in both branches, an empty one in the first. */
  predicate FileParamApplicable(id: string, parameters: Option<seq<Parameter>>)
    // only the two matching kinds of id can throw
    ensures id != ZipPushDeployId && !EndsWith(id, PutItemSuffix) ==> FileParamApplicable(id, parameters)
    ensures id == ZipPushDeployId ==>
      (FileParamApplicable(id, parameters) <==> parameters.Some? && |parameters.value| > 0)
    ensures EndsWith(id, PutItemSuffix) ==> (FileParamApplicable(id, parameters) <==> parameters.Some?)
  {
    ZipPushDeployIsNotPutItem();
    if id == ZipPushDeployId then parameters.Some? && |parameters.value| > 0
    else if EndsWith(id, PutItemSuffix) then parameters.Some?
    else true
  }

  /** The fields an AddFileParamTypes pass leaves behind, and whether it threw. */
  datatype Rewrite = Rewrite(consumes: seq<string>, parameters: Option<seq<Parameter>>, threw: bool)

  /** The effect of AddFileParamTypes.Apply on an operation's consumes and parameters. */
  function FileParamRewrite(id: string, consumes: seq<string>, parameters: Option<seq<Parameter>>): (r: Rewrite)
    ensures r.threw <==> !FileParamApplicable(id, parameters)
    // a throw leaves the parameter list as it was
    ensures r.threw ==> r.parameters == parameters
    // ZipPushDeploy: the first parameter becomes the file, the rest and the count stay
    ensures id == ZipPushDeployId ==> r.consumes == consumes + [MultipartFormData]
    ensures id == ZipPushDeployId && !r.threw ==>
      r.parameters.Some? && |r.parameters.value| == |parameters.value| &&
      r.parameters.value[0] == FileParam && r.parameters.value[1..] == parameters.value[1..]
    // PutItem: the file goes in front of the old parameters, in their order
    ensures EndsWith(id, PutItemSuffix) ==> r.consumes == consumes + [MultipartFormData]
    ensures EndsWith(id, PutItemSuffix) && !r.threw ==>
      r.parameters.Some? && |r.parameters.value| == |parameters.value| + 1 &&
      r.parameters.value[0] == FileParam && r.parameters.value[1..] == parameters.value
    // any other operation is left alone
    ensures id != ZipPushDeployId && !EndsWith(id, PutItemSuffix) ==> r == Rewrite(consumes, parameters, false)
  {
    ZipPushDeployIsNotPutItem();
    if id == ZipPushDeployId then
      var consumes' := consumes + [MultipartFormData];
      if parameters.Some? && |parameters.value| > 0 then
        Rewrite(consumes', Some(ReplaceFirst(parameters.value, FileParam)), false)
      else
        Rewrite(consumes', parameters, true)
    else if EndsWith(id, PutItemSuffix) then
      var consumes' := consumes + [MultipartFormData];
      if parameters.Some? then
        Rewrite(consumes', Some(InsertAt(parameters.value, 0, FileParam)), false)
      else
        Rewrite(consumes', parameters, true)
    else
      Rewrite(consumes, parameters, false)
  }

  /** AddFileParamTypes.Apply. `ok` is false where the source throws, after it
      has already appended to consumes. The id is never changed. */
  method AddFileParamTypes(operation: Operation) returns (ok: bool)
    modifies operation
    ensures operation.operationId == old(operation.operationId)
    ensures ok == FileParamApplicable(old(operation.operationId), old(operation.parameters))
    ensures Rewrite(operation.consumes, operation.parameters, !ok)
         == FileParamRewrite(old(operation.operationId), old(operation.consumes), old(operation.parameters))
  {
    var fileParam := FileParam;
    var consumes := MultipartFormData;
    ok := true;
    if operation.operationId == ZipPushDeployId {
      operation.consumes := operation.consumes + [consumes];
      if operation.parameters.Some? && |operation.parameters.value| > 0 {
        operation.parameters := Some(ReplaceFirst(operation.parameters.value, fileParam));
      } else {
        ok := false;
      }
    } else if EndsWith(operation.operationId, PutItemSuffix) {
      operation.consumes := operation.consumes + [consumes];
      if operation.parameters.Some? {
        operation.parameters := Some(InsertAt(operation.parameters.value, 0, fileParam));
      } else {
        ok := false;
      }
    }
  }

  /** No deduplication: a second pass appends the content type and the file again. */
  lemma FileParamRewriteTwice(id: string, consumes: seq<string>, ps: seq<Parameter>)
    requires EndsWith(id, PutItemSuffix)
    ensures var once := FileParamRewrite(id, consumes, Some(ps));
            var twice := FileParamRewrite(id, once.consumes, once.parameters);
            twice.consumes == consumes + [MultipartFormData, MultipartFormData] &&
            twice.parameters == Some([FileParam, FileParam] + ps)
  {
    ZipPushDeployIsNotPutItem();
    var once := FileParamRewrite(id, consumes, Some(ps));
    assert ps[..0] == [] && ps[0..] == ps;
    assert id != ZipPushDeployId;
    assert InsertAt(ps, 0, FileParam) == [FileParam] + ps;
    assert once.parameters == Some([FileParam] + ps);
    var twice := FileParamRewrite(id, once.consumes, once.parameters);
    var ps' := [FileParam] + ps;
    assert ps'[..0] == [] && ps'[0..] == ps';
    assert twice.parameters.value == [FileParam] + ps';
    assert [FileParam] + ps' == [FileParam, FileParam] + ps;
  }

  // ---------------------------------------------------------------------------
  // NoReservedParam

  /** NoReservedParam.Apply on the parameter field: a null list stays null. */
  function ReservedRemoved(parameters: Option<seq<Parameter>>): (r: Option<seq<Parameter>>)
    ensures r.None? <==> parameters.None?
    ensures r.Some? ==> |r.value| <= |parameters.value|
    ensures r.Some? ==> forall i :: 0 <= i < |r.value| ==> r.value[i].name != ReservedName
  {
    match parameters
    case None => None
    case Some(ps) => Some(WithoutReserved(ps))
  }

  lemma ReservedRemovedIdempotent(parameters: Option<seq<Parameter>>)
    ensures ReservedRemoved(ReservedRemoved(parameters)) == ReservedRemoved(parameters)
  {
    if parameters.Some? {
      WithoutReservedIdempotent(parameters.value);
    }
  }

  /** NoReservedParam.Apply: only the parameter list changes. */
  method NoReservedParam(operation: Operation)
    modifies operation
    ensures operation.operationId == old(operation.operationId)
    ensures operation.consumes == old(operation.consumes)
    ensures operation.parameters == ReservedRemoved(old(operation.parameters))
  {
    if operation.parameters.Some? {
      operation.parameters := Some(WithoutReserved(operation.parameters.value));
    }
  }

  // ---------------------------------------------------------------------------
  // The registered filter chain

  /** Both filters in registration order; a throw in the first ends the chain. */
  function RegisteredFilters(id: string, consumes: seq<string>, parameters: Option<seq<Parameter>>): (r: Rewrite)
    ensures r.threw <==> !FileParamApplicable(id, parameters)
    ensures r.consumes == FileParamRewrite(id, consumes, parameters).consumes
  {
    var first := FileParamRewrite(id, consumes, parameters);
    if first.threw then first
    else first.(parameters := ReservedRemoved(first.parameters))
  }

  /** The file parameter survives NoReservedParam: its name is not "arguments",
      so it stays first and the rest of the list is the filtered remainder. */
  lemma FileParamSurvivesFilters(id: string, consumes: seq<string>, parameters: Option<seq<Parameter>>)
    requires id == ZipPushDeployId || EndsWith(id, PutItemSuffix)
    requires FileParamApplicable(id, parameters)
    ensures var r := RegisteredFilters(id, consumes, parameters);
            !r.threw && r.consumes == consumes + [MultipartFormData] &&
            r.parameters.Some? && |r.parameters.value| > 0 && r.parameters.value[0] == FileParam &&
            r.parameters.value[1..] == WithoutReserved(FileParamRewrite(id, consumes, parameters).parameters.value[1..])
  {
  }

  /** The documentation generator's pass over one operation. */
  method ApplyOperationFilters(operation: Operation) returns (ok: bool)
    modifies operation
    ensures operation.operationId == old(operation.operationId)
    ensures Rewrite(operation.consumes, operation.parameters, !ok)
         == RegisteredFilters(old(operation.operationId), old(operation.consumes), old(operation.parameters))
  {
    ok := AddFileParamTypes(operation);
    if ok {
      NoReservedParam(operation);
    }
  }
}
