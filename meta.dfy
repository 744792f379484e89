/** The Kubernetes object metadata the core reads and writes (`metav1`), the
    status-condition shape, and the API errors the object store returns. */
module Meta {
  import opened Wrappers
  import Text

  /** `metav1.OwnerReference`. The two optional flags are the ones the grant
      server discards when it re-derives a reference. */
  datatype OwnerReference = OwnerReference(
    apiVersion: string,
    kind: string,
    name: string,
    uid: string,
    controller: Option<bool>,
    blockOwnerDeletion: Option<bool>)

  /** `metav1.ObjectMeta`, reduced to the fields the core and the store use. */
  datatype ObjectMeta = ObjectMeta(
    name: string,
    namespace: string,
    labels: map<string, string>,
    ownerReferences: seq<OwnerReference>,
    resourceVersion: nat,
    generation: nat)

  function NamedMeta(name: string, ownerReferences: seq<OwnerReference>): ObjectMeta
  {
    ObjectMeta(name, "", map[], ownerReferences, 0, 0)
  }

  datatype ConditionStatus = True | False | Unknown

  /** `metav1.Condition`. */
  datatype Condition = Condition(
    conditionType: string,
    status: ConditionStatus,
    reason: string,
    message: string,
    observedGeneration: int)

  predicate NoneOfType(conditions: seq<Condition>, conditionType: string)
  {
    forall i :: 0 <= i < |conditions| ==> conditions[i].conditionType != conditionType
  }

  /** `meta.FindStatusCondition`: the first condition of the given Type. */
  function FindCondition(conditions: seq<Condition>, conditionType: string): (r: Option<Condition>)
    ensures r.None? <==> NoneOfType(conditions, conditionType)
    ensures r.Some? ==> r.value in conditions && r.value.conditionType == conditionType
  {
    if conditions == [] then None
    else if conditions[0].conditionType == conditionType then Some(conditions[0])
    else FindCondition(conditions[1..], conditionType)
  }

  /** The condition found is the earliest entry of that Type. */
  lemma {:induction false} FindConditionFirst(conditions: seq<Condition>, conditionType: string, i: nat)
    requires i < |conditions| && conditions[i].conditionType == conditionType
    requires NoneOfType(conditions[..i], conditionType)
    ensures FindCondition(conditions, conditionType) == Some(conditions[i])
  {
    if i > 0 {
      assert conditions[..i][0] == conditions[0];
      assert conditions[1..][..i - 1] == conditions[..i][1..];
      FindConditionFirst(conditions[1..], conditionType, i - 1);
    }
  }

  /** When Types are unique (as `meta.SetStatusCondition` keeps them), the
      condition found is the one and only entry of that Type. */
  lemma FindConditionUnique(conditions: seq<Condition>, i: nat)
    requires i < |conditions|
    requires forall j, k :: 0 <= j < k < |conditions| ==> conditions[j].conditionType != conditions[k].conditionType
    ensures FindCondition(conditions, conditions[i].conditionType) == Some(conditions[i])
  {
    var t := conditions[i].conditionType;
    forall j | 0 <= j < i ensures conditions[..i][j].conditionType != t {
      assert conditions[..i][j] == conditions[j];
    }
    FindConditionFirst(conditions, t, i);
  }

  /** The API errors of the object store (`k8s.io/apimachinery/pkg/api/errors`);
      `Failed` is any other fault, carried as its message. */
  datatype StoreError =
    | NotFound(resource: string, name: string)
    | AlreadyExists(resource: string, name: string)
    | Conflict(resource: string, name: string)
    | Failed(message: string)

  const ConflictLeadIn := "Operation cannot be fulfilled on "

  /** What an API error's text starts with: the resource, after a fixed
      lead-in for a conflict. */
  function Subject(e: StoreError): string
    requires !e.Failed?
  {
    if e.Conflict? then ConflictLeadIn + e.resource else e.resource
  }

  /** The cause the API server gives for a conflicting update. */
  const OptimisticLockMessage := "the object has been modified; please apply your changes to the latest version and try again"

  /** What an API error's text ends with, after the quoted name. */
  function Ending(e: StoreError): (t: string)
    requires !e.Failed?
    ensures |t| > 1 && t[0] == (if e.Conflict? then ':' else ' ')
    ensures !e.Conflict? ==> t[1] == (if e.NotFound? then 'n' else 'a')
  {
    match e
    case NotFound(_, _) => " not found"
    case AlreadyExists(_, _) => " already exists"
    case Conflict(_, _) => ": " + OptimisticLockMessage
  }

  /** `err.Error()` of each store error. */
  function ErrorMessage(e: StoreError): string
  {
    if e.Failed? then e.message else Subject(e) + " " + Text.Quote(e.name) + Ending(e)
  }

  /** Resource and object names never hold a quote character. */
  predicate QuoteFree(s: string) { '"' !in s }

  /** In a text made of a quote-free part, a separator that starts with a
      quote and the rest, the first quote tells where the part ends. */
  lemma QuoteFreeSplit(r1: string, x1: string, r2: string, x2: string, sep: string)
    requires QuoteFree(r1) && QuoteFree(r2) && |sep| > 0 && sep[|sep| - 1] == '"' && QuoteFree(sep[..|sep| - 1])
    requires r1 + sep + x1 == r2 + sep + x2
    ensures r1 == r2 && x1 == x2
  {
    var m := r1 + sep + x1;
    var q := |sep| - 1;
    assert forall i :: 0 <= i < |r1| ==> m[i] == r1[i];
    assert forall i :: 0 <= i < |r2| ==> m[i] == r2[i];
    assert forall i :: 0 <= i < q ==> m[|r1| + i] == sep[..q][i] && m[|r2| + i] == sep[..q][i];
    assert m[|r1| + q] == '"' && m[|r2| + q] == '"';
    assert |r1| == |r2|;
    assert m[..|r1|] == r1 && m[..|r2|] == r2;
    assert m[|r1| + |sep|..] == x1 && m[|r2| + |sep|..] == x2;
  }

  lemma SubjectQuoteFree(e: StoreError)
    requires !e.Failed? && QuoteFree(e.resource)
    ensures QuoteFree(Subject(e))
  {
    if e.Conflict? {
      assert QuoteFree(ConflictLeadIn);
    }
  }

  lemma ErrorMessageShape(e: StoreError)
    requires !e.Failed?
    ensures ErrorMessage(e) == Subject(e) + " \"" + (e.name + "\"" + Ending(e))
  {
    var s, t := Subject(e), Ending(e);
    assert s + " " + Text.Quote(e.name) + t == s + " \"" + (e.name + "\"" + t);
  }

  /** The text of an API error on a resource and object whose names hold no
      quote character tells which error it is, on which resource, for which
      object. */
  lemma ErrorMessageInjective(e1: StoreError, e2: StoreError)
    requires !e1.Failed? && !e2.Failed?
    requires QuoteFree(e1.resource) && QuoteFree(e2.resource) && QuoteFree(e1.name) && QuoteFree(e2.name)
    ensures ErrorMessage(e1) == ErrorMessage(e2) ==> e1 == e2
  {
    if ErrorMessage(e1) == ErrorMessage(e2) {
      var t1, t2 := Ending(e1), Ending(e2);
      ErrorMessageShape(e1);
      ErrorMessageShape(e2);
      SubjectQuoteFree(e1);
      SubjectQuoteFree(e2);
      QuoteFreeSplit(Subject(e1), e1.name + "\"" + t1, Subject(e2), e2.name + "\"" + t2, " \"");
      QuoteFreeSplit(e1.name, t1, e2.name, t2, "\"");
      assert t1[0] == t2[0] && t1[1] == t2[1];
      if e1.Conflict? {
        assert Subject(e1)[|ConflictLeadIn|..] == e1.resource && Subject(e2)[|ConflictLeadIn|..] == e2.resource;
      }
    }
  }
}
