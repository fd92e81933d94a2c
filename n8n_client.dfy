/** The webhook client (src/clients/n8nClient.js): builds the n8n webhook
    URL and headers from its configuration and posts one event. The HTTP
    POST itself (axios) is the class `Network`, an oracle that records every
    request and settles it as its `outcome` function says. */
module N8nClient {
  import opened Values

  datatype Post = Post(url: string, body: Json, headers: map<string, string>)

  /** The outside world reached over HTTP. */
  class Network {
    /** Every POST issued, in order. */
    var posts: seq<Post>
    /** The fate of the n-th POST: None when delivered, Some(message) when it fails. */
    const outcome: (nat, Post) -> Option<string>

    constructor(outcome: (nat, Post) -> Option<string>)
      ensures posts == [] && this.outcome == outcome
    {
      posts := [];
      this.outcome := outcome;
    }

    /** `axios.post(url, body, { headers })` */
    method Send(p: Post) returns (failure: Option<string>)
      modifies this
      ensures posts == old(posts) + [p]
      ensures failure == outcome(|old(posts)|, p)
    {
      failure := outcome(|posts|, p);
      posts := posts + [p];
    }
  }

  const WebhookSegment: string := "webhook/"
  const TestWebhookSegment: string := "webhook-test/"

  class N8nClient {
    const instance: string
    /** `apiToken`, absent when not configured. */
    const apiToken: Option<string>
    const webhookPath: string
    var isTestMode: bool

    constructor(instance: string, apiToken: Option<string>, webhookPath: string)
      ensures this.instance == instance && this.apiToken == apiToken && this.webhookPath == webhookPath
      ensures !isTestMode
    {
      this.instance := instance;
      this.apiToken := apiToken;
      this.webhookPath := webhookPath;
      isTestMode := false;
    }

    /** `setTestMode(testMode = true)` */
    method SetTestMode(testMode: bool := true)
      modifies this
      ensures isTestMode == testMode
    {
      isTestMode := testMode;
    }

    /** `_buildWebhookUrl()`: `${instance}webhook${isTestMode ? '-test' : ''}/${webhookPath}`.
        The instance is a prefix, the path a suffix, and the character right
        after "webhook" tells the two modes apart. */
    function WebhookUrl(): (url: string)
      reads this
      ensures |url| == |instance| + (if isTestMode then 13 else 8) + |webhookPath|
      ensures url[..|instance|] == instance
      ensures url[|url| - |webhookPath|..] == webhookPath
      ensures url[|instance|..|instance| + 7] == "webhook"
      ensures url[|instance| + 7] == (if isTestMode then '-' else '/')
      ensures url[|url| - |webhookPath| - 1] == '/'
      ensures url[|instance|..|url| - |webhookPath|] == if isTestMode then TestWebhookSegment else WebhookSegment
    {
      instance + (if isTestMode then TestWebhookSegment else WebhookSegment) + webhookPath
    }

    /** `_buildHeaders()`: always a JSON content type; a bearer token exactly
        when the token is truthy. */
    function Headers(): (h: map<string, string>)
      reads this
      ensures "Content-Type" in h && h["Content-Type"] == "application/json"
      ensures "Authorization" in h <==> TruthyString(apiToken)
      ensures "Authorization" in h ==> h["Authorization"] == "Bearer " + apiToken.value
      ensures h.Keys <= {"Content-Type", "Authorization"}
    {
      var base := map["Content-Type" := "application/json"];
      if TruthyString(apiToken) then base["Authorization" := "Bearer " + apiToken.value] else base
    }

    /** The POST that `forwardEvent(event)` issues. */
    function PostFor(event: Json): Post
      reads this
    {
      Post(WebhookUrl(), event, Headers())
    }

    /** `forwardEvent(event)`: posts the event; a delivery failure is logged
        and rethrown, so it reaches the caller. */
    method ForwardEvent(event: Json, net: Network) returns (failure: Option<string>)
      modifies net
      ensures net.posts == old(net.posts) + [PostFor(event)]
      ensures failure == net.outcome(|old(net.posts)|, PostFor(event))
    {
      var url := WebhookUrl();
      var headers := Headers();
      failure := net.Send(Post(url, event, headers));
    }
  }

  /** The two modes post to different URLs. */
  lemma {:induction false} TestModeChangesUrl(c: N8nClient, d: N8nClient)
    requires c.instance == d.instance && c.webhookPath == d.webhookPath
    requires c.isTestMode != d.isTestMode
    ensures c.WebhookUrl() != d.WebhookUrl()
  {
    var i := |c.instance|;
    assert c.WebhookUrl()[i + 7] != d.WebhookUrl()[i + 7];
  }
}
