/**
 * The two definitions the resource's examples declare, a `redis` service and
 * a `web-api` health check, and the files they produce.
 */
module ConsulDefinitionExamples {

  import opened Json
  import opened ConsulDefinition

  /** Where the resource's two examples are written. */
  lemma ExamplePaths()
    ensures DefinitionPath("redis") == "/etc/consul/redis.json"
    ensures DefinitionPath("web-api") == "/etc/consul/web-api.json"
  {
  }

  /** The document of the `redis` service of the resource's examples. */
  lemma RedisService(params: seq<(string, Value)>)
    requires params == [("tags", List([Str("master")])), ("address", Str("127.0.0.1")),
                        ("port", Int(6379)), ("interval", Str("10s"))]
    ensures DefinitionDocument("redis", Service, params) ==
      Obj([("service", Obj([("tags", List([Str("master")])), ("address", Str("127.0.0.1")),
                            ("port", Int(6379)), ("interval", Str("10s")), ("name", Str("redis"))]))])
  {
    var inner := WithName(params, "redis");
    assert inner == params + [("name", Str("redis"))] by {
      assert "name" !in Keys(params) by {
        assert Keys(params) == ["tags", "address", "port", "interval"];
        assert "name"[0] != "tags"[0] && "name"[0] != "port"[0];
      }
      WithNameKeys(params, "redis");
    }
    assert inner == [("tags", List([Str("master")])), ("address", Str("127.0.0.1")),
                     ("port", Int(6379)), ("interval", Str("10s")), ("name", Str("redis"))];
  }

  /** The document of the `web-api` check of the resource's examples. */
  lemma WebApiCheck(params: seq<(string, Value)>)
    requires params == [("http", Str("http://localhost:5000/health")), ("ttl", Str("30s"))]
    ensures DefinitionDocument("web-api", Check, params) ==
      Obj([("check", Obj([("http", Str("http://localhost:5000/health")), ("ttl", Str("30s")),
                          ("name", Str("web-api"))]))])
  {
    var inner := WithName(params, "web-api");
    assert inner == params + [("name", Str("web-api"))] by {
      assert Keys(params) == ["http", "ttl"];
      WithNameKeys(params, "web-api");
    }
    assert inner == [("http", Str("http://localhost:5000/health")), ("ttl", Str("30s")), ("name", Str("web-api"))];
  }
}
