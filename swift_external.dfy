/**
 * How the Swift backend names a type defined in another crate: the label is the type's
 * own name, and the canonical name, used to derive helper identifiers, prefixes it with
 * `Type`. The code oracle both members receive is not consulted.
 */
module SwiftExternal {

  /** `ExternalCodeType { name }`. */
  datatype ExternalCodeType = ExternalCodeType(name: string)

  const CanonicalPrefix := "Type"

  /** `ExternalCodeType::new(name)`: keeps the name as given. */
  function New(name: string): (t: ExternalCodeType)
    ensures t.name == name
  {
    ExternalCodeType(name)
  }

  /** `type_label`: the stored name, whatever the oracle. */
  function TypeLabel<Oracle>(t: ExternalCodeType, oracle: Oracle): (r: string)
    ensures r == t.name
  {
    t.name
  }

  /** `canonical_name`: "Type" followed by the label. */
  function CanonicalName<Oracle>(t: ExternalCodeType, oracle: Oracle): (r: string)
    ensures |r| == |TypeLabel(t, oracle)| + 4
    ensures r[..4] == CanonicalPrefix && r[4..] == TypeLabel(t, oracle)
  {
    CanonicalPrefix + t.name
  }

  /** Both names are determined by the stored name alone; the oracle is ignored. */
  lemma OracleIgnored<O1, O2>(t: ExternalCodeType, o1: O1, o2: O2)
    ensures TypeLabel(t, o1) == TypeLabel(t, o2)
    ensures CanonicalName(t, o1) == CanonicalName(t, o2)
  {
  }

  /** Canonical names tell external types apart: equal canonical names mean equal names. */
  lemma CanonicalNameInjective<Oracle>(a: ExternalCodeType, b: ExternalCodeType, oracle: Oracle)
    ensures CanonicalName(a, oracle) == CanonicalName(b, oracle) ==> a == b
  {
  }

  /** Constructing then labelling gives back the name. */
  lemma LabelOfNew<Oracle>(name: string, oracle: Oracle)
    ensures TypeLabel(New(name), oracle) == name
    ensures CanonicalName(New(name), oracle) == CanonicalPrefix + name
  {
  }
}
