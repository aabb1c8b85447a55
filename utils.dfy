/** `transform_to_experian_format`: the Experian request body built from a search request. */
module Utils {
  import opened Wrappers
  import opened Strings
  import opened Json
  import opened Models

  /** `ExperianPayload`: two string-to-string dicts. */
  datatype ExperianPayload = ExperianPayload(leadTransDetails: seq<Member>, leadAddress: seq<Member>)

  function TransformToExperianFormat(r: SearchRequest): ExperianPayload {
    ExperianPayload(
      [Member("FIRST_NAME", JStr(r.firstName)), Member("LAST_NAME", JStr(r.lastName))],
      [Member("STREET1", JStr(r.street1)), Member("STREET2", JStr(r.street2.GetOr(""))),
       Member("CITY", JStr(r.city)), Member("STATE", JStr(Upper(r.state))), Member("ZIP", JStr(r.zip))])
  }

  /** The names are copied under `FIRST_NAME` and `LAST_NAME`, the only two keys. */
  lemma ExperianNames(r: SearchRequest)
    ensures var d := TransformToExperianFormat(r).leadTransDetails;
      && Keys(d) == ["FIRST_NAME", "LAST_NAME"]
      && Get(d, "FIRST_NAME") == Some(JStr(r.firstName))
      && Get(d, "LAST_NAME") == Some(JStr(r.lastName))
  {
    var d := TransformToExperianFormat(r).leadTransDetails;
    assert "FIRST_NAME"[0] != "LAST_NAME"[0];
    GetAt(d, 0);
    GetAt(d, 1);
  }

  /** The five address keys are distinct. */
  lemma AddressKeysUnique(r: SearchRequest)
    ensures UniqueKeys(TransformToExperianFormat(r).leadAddress)
  {
    assert "STREET1"[6] != "STREET2"[6];
    assert "STREET1"[0] != "CITY"[0] && "STREET1"[2] != "STATE"[2] && "STREET1"[0] != "ZIP"[0];
    assert "STREET2"[0] != "CITY"[0] && "STREET2"[2] != "STATE"[2] && "STREET2"[0] != "ZIP"[0];
    assert "CITY"[0] != "STATE"[0] && "CITY"[0] != "ZIP"[0] && "STATE"[0] != "ZIP"[0];
  }

  /**
   * Street, city and ZIP are copied; the state is upper-cased; a missing
   * second street line becomes "".
   */
  lemma ExperianAddress(r: SearchRequest)
    ensures var a := TransformToExperianFormat(r).leadAddress;
      && Keys(a) == ["STREET1", "STREET2", "CITY", "STATE", "ZIP"]
      && Get(a, "STREET1") == Some(JStr(r.street1))
      && Get(a, "STREET2") == Some(JStr(if r.street2.Some? then r.street2.value else ""))
      && Get(a, "CITY") == Some(JStr(r.city))
      && Get(a, "STATE") == Some(JStr(Upper(r.state)))
      && Get(a, "ZIP") == Some(JStr(r.zip))
  {
    var a := TransformToExperianFormat(r).leadAddress;
    AddressKeysUnique(r);
    GetFive(a);
    AddressKeys(r);
  }

  lemma AddressKeys(r: SearchRequest)
    ensures Keys(TransformToExperianFormat(r).leadAddress) == ["STREET1", "STREET2", "CITY", "STATE", "ZIP"]
  {
  }

  lemma GetFive(a: seq<Member>)
    requires |a| == 5 && UniqueKeys(a)
    ensures Get(a, a[0].key) == Some(a[0].value) && Get(a, a[1].key) == Some(a[1].value)
    ensures Get(a, a[2].key) == Some(a[2].value) && Get(a, a[3].key) == Some(a[3].value)
    ensures Get(a, a[4].key) == Some(a[4].value)
  {
    GetAt(a, 0);
    GetAt(a, 1);
    GetAt(a, 2);
    GetAt(a, 3);
    GetAt(a, 4);
  }

  /** A valid request's state is two upper-case-or-other characters, never a lower-case letter. */
  lemma StateUpper(r: SearchRequest)
    requires Valid(r)
    ensures |Upper(r.state)| == 2 && NoLowerLetter(Upper(r.state))
  {
  }
}
