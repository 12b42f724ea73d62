/**
 Label selectors of the cluster API, used for pods and for namespaces.
 */
module Selectors {

  type Labels = map<string, string>

  datatype Operator = In | NotIn | Exists | DoesNotExist

  datatype Requirement = Requirement(key: string, op: Operator, values: set<string>)

  /** A plain label pair `k: v` is the requirement `k In {v}`. */
  datatype Selector = Selector(requirements: seq<Requirement>)

  /** Whether the selector can be turned into a matcher at all. */
  predicate Parses(s: Selector)
  {
    forall r | r in s.requirements ::
      if r.op.In? || r.op.NotIn? then r.values != {} else r.values == {}
  }

  predicate Satisfies(r: Requirement, labels: Labels)
  {
    match r.op
    case In => r.key in labels && labels[r.key] in r.values
    case NotIn => r.key in labels ==> labels[r.key] !in r.values
    case Exists => r.key in labels
    case DoesNotExist => r.key !in labels
  }

  predicate Matches(s: Selector, labels: Labels)
  {
    MatchesAll(s.requirements, labels)
  }

  predicate MatchesAll(requirements: seq<Requirement>, labels: Labels)
  {
    requirements == [] || (Satisfies(requirements[0], labels) && MatchesAll(requirements[1..], labels))
  }
}
