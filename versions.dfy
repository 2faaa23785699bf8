/** How the two versions of the strategy relate: where both read truthy
    credentials they decide alike, and where they differ. */
module Versions {
  import opened Js
  import opened Passport
  import Web3Strategy
  import LegacyStrategy

  /** The legacy body's credentials under the current version's keys. */
  function Renamed(body: map<string, JsValue>): (r: map<string, JsValue>)
    ensures Web3Strategy.Complete(Some(r))
    ensures Lookup(r, "address") == Lookup(body, "ethAddress")
    ensures Lookup(r, "msg") == Lookup(body, "msg")
    ensures Lookup(r, "signed") == Lookup(body, "signedMsg")
  {
    map["address" := Lookup(body, "ethAddress"), "msg" := Lookup(body, "msg"), "signed" := Lookup(body, "signedMsg")]
  }

  /** When all three legacy fields are truthy, the legacy check and the
      current check of the same credentials (sent in the body, under the
      current names) reach the same decision: the current version's extra
      test that the recovered value is truthy cannot matter, since it must
      equal a truthy address. */
  lemma AgreeOnTruthyCredentials(body: map<string, JsValue>, query: Option<map<string, JsValue>>, recover: Recover)
    requires Truthy(Lookup(body, "ethAddress")) && Truthy(Lookup(body, "msg")) && Truthy(Lookup(body, "signedMsg"))
    ensures LegacyStrategy.Decide(body, recover) ==
            Web3Strategy.Decide(Web3Strategy.GetCredentials(Request(Some(Renamed(body)), query)), recover)
  {
  }

  /** Every request the legacy version lets through to its callback, the
      current version lets through too, with the same credentials. A
      corollary of `AgreeOnTruthyCredentials`: a legacy match already has
      three truthy fields. */
  lemma LegacyVerifiedImpliesCurrentVerified(body: map<string, JsValue>, query: Option<map<string, JsValue>>, recover: Recover)
    requires LegacyStrategy.Decide(body, recover).Verified?
    ensures Web3Strategy.Decide(Web3Strategy.GetCredentials(Request(Some(Renamed(body)), query)), recover) ==
            LegacyStrategy.Decide(body, recover)
  {
    AgreeOnTruthyCredentials(body, query, recover);
  }

  /** The versions differ on empty values: a body whose `msg` is empty is
      "Missing credentials" for the legacy version, while the current one,
      given the same values under its own keys, takes them as credentials
      and goes on to the recovery step. */
  lemma EmptyMessageSeparatesVersions(body: map<string, JsValue>, recover: Recover, query: Option<map<string, JsValue>>)
    requires "msg" in body && body["msg"] == Str("")
    ensures LegacyStrategy.Decide(body, recover) == NoCredentials
    ensures Web3Strategy.Decide(Web3Strategy.GetCredentials(Request(Some(Renamed(body)), query)), recover) != NoCredentials
  {
  }
}
