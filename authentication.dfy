/** The process-wide credential holder (authentication/authentication.go): an API key and a
    default organization ID, each set through a guarded setter and read through a getter.
    The reader/writer locks around each value are not modelled; calls are taken one at a time. */
module Authentication {
  import opened Wrappers
  import opened Errors

  const AuthHeaderKey := "Authorization"
  const AuthHeaderPrefix := "Bearer "
  const OrgHeaderKey := "OpenAI-Organization"

  const EmptyKeyText := "provided key was the empty string"
  const EmptyOrgIDText := "provided ID was the empty string"

  /** The two stored values at one moment, as the request builders read them. */
  datatype Credentials = Credentials(apiKey: string, defaultOrgID: string)

  /** The two package-level cells `apiKey` and `defaultOrgID`. */
  class CredentialStore {
    var apiKey: string
    var defaultOrgID: string

    /** Both cells start out as the empty string. */
    constructor ()
      ensures apiKey == "" && defaultOrgID == ""
    {
      apiKey := "";
      defaultOrgID := "";
    }

    function Snapshot(): (c: Credentials)
      reads this
      ensures c.apiKey == apiKey && c.defaultOrgID == defaultOrgID
    {
      Credentials(apiKey, defaultOrgID)
    }

    /** Rejects the empty key and keeps the old one; otherwise replaces the key. The
        organization ID is never touched. */
    method SetAPIKey(key: string) returns (err: Option<Error>)
      modifies this`apiKey
      ensures key == "" ==> err == Some(Plain(EmptyKeyText)) && apiKey == old(apiKey)
      ensures key != "" ==> err == None && apiKey == key
      ensures defaultOrgID == old(defaultOrgID)
    {
      if |key| == 0 {
        return Some(Plain(EmptyKeyText));
      }
      apiKey := key;
      return None;
    }

    method APIKey() returns (key: string)
      ensures key == apiKey
    {
      return apiKey;
    }

    /** Rejects the empty ID and keeps the old one; otherwise replaces the ID. The API key is
        never touched. */
    method SetDefaultOrganizationID(orgID: string) returns (err: Option<Error>)
      modifies this`defaultOrgID
      ensures orgID == "" ==> err == Some(Plain(EmptyOrgIDText)) && defaultOrgID == old(defaultOrgID)
      ensures orgID != "" ==> err == None && defaultOrgID == orgID
      ensures apiKey == old(apiKey)
    {
      if |orgID| == 0 {
        return Some(Plain(EmptyOrgIDText));
      }
      defaultOrgID := orgID;
      return None;
    }

    method DefaultOrganizationID() returns (orgID: string)
      ensures orgID == defaultOrgID
    {
      return defaultOrgID;
    }
  }

  /** The sequence authentication_test.go runs, extended with the organization ID: an empty
      key is refused and the key set before it survives. */
  method StoreScenario()
  {
    var store := new CredentialStore();
    var err := store.SetAPIKey("");
    assert err.Some? && store.apiKey == "";
    err := store.SetAPIKey("k1");
    assert err == None;
    err := store.SetAPIKey("");
    var key := store.APIKey();
    assert err.Some? && key == "k1";
    err := store.SetDefaultOrganizationID("org-A");
    err := store.SetDefaultOrganizationID("");
    var org := store.DefaultOrganizationID();
    assert err.Some? && org == "org-A" && store.apiKey == "k1";
  }
}
