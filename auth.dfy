/**
  Authentication strategies (`utils/auth.py`): each is a pair of strings set
  once at construction, and `headers()` builds a fresh one-entry header map.
*/
module Auth {
  import opened Wrappers
  import opened Dicts
  import Text

  /** A header whose value is an API key. */
  datatype APIKeyAuth = APIKeyAuth(headerName: string, apiKey: string)
  {
    /** The single header `header_name: api_key`. */
    function Headers(): (h: Assoc<string>)
      ensures Keys(h) == [headerName]
      ensures Get(h, headerName) == Some(apiKey)
    {
      [(headerName, apiKey)]
    }
  }

  /** A bearer-style token. */
  datatype OAuthTokenAuth = OAuthTokenAuth(token: string, tokenType: string)
  {
    /** The single header `Authorization: "<token_type> <token>"`. */
    function Headers(): (h: Assoc<string>)
      ensures Keys(h) == ["Authorization"]
      ensures Get(h, "Authorization") == Some(tokenType + " " + token)
    {
      [("Authorization", tokenType + " " + token)]
    }
  }

  /** `OAuthTokenAuth(token)`: the token type defaults to "Bearer". */
  function NewOAuthTokenAuth(token: string): (a: OAuthTokenAuth)
    ensures a.token == token && a.tokenType == "Bearer"
    ensures Get(a.Headers(), "Authorization") == Some("Bearer " + token)
  {
    var a := OAuthTokenAuth(token, "Bearer");
    assert a.tokenType + " " + a.token == "Bearer " + token;
    a
  }

  /**
    The Authorization header splits back, at its first space, into the token
    type and the token, whenever the token type has no space in it.
  */
  lemma {:induction false} OAuthHeaderRoundTrip(a: OAuthTokenAuth)
    requires !Text.Contains(a.tokenType, " ")
    ensures var v := Get(a.Headers(), "Authorization").value;
      Text.Contains(v, " ") && Text.SplitFirst(v, " ") == (a.tokenType, a.token)
  {
    var v := a.tokenType + " " + a.token;
    Text.ContainsInfix(a.tokenType, " ", a.token);
    var i := Text.IndexOf(v, " ").value;
    assert Text.OccursAt(v, " ", |a.tokenType|);
    if i < |a.tokenType| {
      assert v[i..i + 1] == a.tokenType[i..i + 1];
      assert Text.OccursAt(a.tokenType, " ", i);
    }
    assert i == |a.tokenType|;
    assert v[..i] == a.tokenType && v[i + 1..] == a.token;
  }
}
