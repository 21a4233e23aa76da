/** createEndpointAndExporter: the collector endpoint and the exporter that
    sends to it, chosen by the OTLP sub-protocol. */
module Transport {
  import opened Wrappers
  import opened Records

  /** The connection settings copied from the configuration at startup
      (`_protocol`, `_otlProtocol`, `_host`, `_port`). The port is kept as
      the text it renders to inside the endpoint. */
  datatype Settings = Settings(protocol: string, otlProtocol: string, host: string, port: string)

  /** The OTLP exporters, reduced to what they are built with. */
  datatype Exporter =
    | HttpExporter(url: string, headers: map<string, string>)
    | GrpcExporter(url: string, headers: map<string, string>)
  {
    function Url(): string {
      match this
      case HttpExporter(u, _) => u
      case GrpcExporter(u, _) => u
    }
  }

  datatype EndpointAndExporter = EndpointAndExporter(endpoint: Option<string>, exporter: Option<Exporter>)

  const HttpPath := "/v1/metrics"
  const GrpcPath := "/otlp"

  /** `{protocol}://{host}:{port}` */
  function Origin(s: Settings): string {
    s.protocol + "://" + s.host + ":" + s.port
  }

  /** The sub-protocols an exporter exists for. */
  predicate KnownSubProtocol(otlProtocol: string) {
    otlProtocol == "http" || otlProtocol == "grpc"
  }

  /** `http` gives the HTTP exporter on `/v1/metrics`, `grpc` the gRPC
      exporter on `/otlp`, anything else `(null, null)`. An absent header
      table counts as no headers (see the as-written variant below). */
  function CreateEndpointAndExporter(s: Settings, headers: Option<Table>): (r: EndpointAndExporter)
    ensures r.endpoint.Some? <==> r.exporter.Some?
    ensures r.endpoint.Some? <==> KnownSubProtocol(s.otlProtocol)
    ensures s.otlProtocol == "http" ==>
              r.endpoint == Some(Origin(s) + HttpPath) && r.exporter.value.HttpExporter?
    ensures s.otlProtocol == "grpc" ==>
              r.endpoint == Some(Origin(s) + GrpcPath) && r.exporter.value.GrpcExporter?
    ensures r.exporter.Some? ==>
              r.exporter.value.Url() == r.endpoint.value
              && r.exporter.value.headers == IobTable2Record(headers)
  {
    var headerRecord := IobTable2Record(headers);
    if s.otlProtocol == "http" then
      var url := Origin(s) + HttpPath;
      EndpointAndExporter(Some(url), Some(HttpExporter(url, headerRecord)))
    else if s.otlProtocol == "grpc" then
      var url := Origin(s) + GrpcPath;
      EndpointAndExporter(Some(url), Some(GrpcExporter(url, headerRecord)))
    else
      EndpointAndExporter(None, None)
  }

  /** The endpoint alone tells which exporter was built: the HTTP endpoint
      is the only one ending in `/v1/metrics`. */
  lemma EndpointIdentifiesExporter(s: Settings, headers: Option<Table>)
    requires CreateEndpointAndExporter(s, headers).endpoint.Some?
    ensures var r := CreateEndpointAndExporter(s, headers);
            var e := r.endpoint.value;
            && Origin(s) <= e
            && (r.exporter.value.HttpExporter? <==> |e| >= |HttpPath| && e[|e| - |HttpPath|..] == HttpPath)
  {
    var r := CreateEndpointAndExporter(s, headers);
    var e := r.endpoint.value;
    if s.otlProtocol == "grpc" {
      assert e[|e| - 1] == 'p';
    }
  }

  /** createEndpointAndExporter as written: the debug message it logs counts
      `Object.keys(headers)`, which throws a TypeError when the header table
      is undefined, although `iobTable2Record(headers)` is written to accept
      an undefined table. */
  function CreateEndpointAndExporterAsWritten(s: Settings, headers: Option<Table>): (r: Result<EndpointAndExporter, string>)
    ensures r.Failure? <==> headers.None?
    ensures headers.Some? ==> r == Success(CreateEndpointAndExporter(s, headers))
  {
    if headers.None? then Failure("TypeError: Cannot convert undefined or null to object")
    else Success(CreateEndpointAndExporter(s, headers))
  }

  /** A complete HTTP configuration without a header table: the code as
      written throws, where the intended result is the usual endpoint with
      no headers. */
  lemma MissingHeadersThrow()
    ensures CreateEndpointAndExporterAsWritten(Settings("http", "http", "localhost", "4318"), None).Failure?
    ensures CreateEndpointAndExporter(Settings("http", "http", "localhost", "4318"), None)
            == EndpointAndExporter(Some("http://localhost:4318/v1/metrics"),
                                   Some(HttpExporter("http://localhost:4318/v1/metrics", map[])))
  {
    var s := Settings("http", "http", "localhost", "4318");
    assert Origin(s) + HttpPath == "http://localhost:4318/v1/metrics";
  }
}
