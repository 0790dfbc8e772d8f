/** The gateway's route definitions: five services, their base URLs from configuration
    and their endpoints in declaration order. */
module RouteDefinitions {
  import opened Results
  import opened GatewayRouter

  /** A configuration lookup; a missing key reads as "". */
  function ConfigValue(config: map<string, string>, key: string): (v: string)
    ensures key in config ==> v == config[key]
    ensures key !in config ==> v == ""
  {
    if key in config then config[key] else ""
  }

  function Public(httpMethod: string, path: string, description: string): EndpointConfig
  {
    EndpointConfig(httpMethod, path, Some(false), description)
  }

  const AuthEndpoints: seq<EndpointConfig> := [
    Public("GET", "/google/login", "Google OAuth login"),
    Public("GET", "/google/callback", "Google OAuth callback"),
    Public("GET", "/health", "Health check endpoint"),
    EndpointConfig("POST", "/refresh", Some(true), "Refresh authentication token"),
    EndpointConfig("POST", "/logout", Some(true), "Logout and invalidate token")]

  function AuthService(baseURL: string): Service
  {
    Service(baseURL, AuthEndpoints, false)
  }

  const StreamingEndpoints: seq<EndpointConfig> := [
    Public("GET", "/health", "Health check endpoint"),
    Public("GET", "/videos/:videoID", "Get video by ID"),
    Public("GET", "/videos/:videoID/thumbnail", "Get video thumbnail"),
    Public("GET", "/videos/:videoID/hls/manifest", "Get HLS manifest"),
    Public("GET", "/videos/:videoID/hls/:resolution/playlist", "Get HLS playlist for specific resolution"),
    Public("GET", "/videos/:videoID/hls/:resolution/:segment", "Get HLS segment"),
    Public("GET", "/videos/:videoID/hls/segments/:segment", "Get HLS segment directly"),
    Public("GET", "/videos/:videoID/mp4", "Get MP4 video"),
    Public("GET", "/videos/:videoID/mp4/qualities", "List available MP4 qualities")]

  function StreamingService(baseURL: string): Service
  {
    Service(baseURL, StreamingEndpoints, false)
  }

  const MetadataEndpoints: seq<EndpointConfig> := [
    Public("GET", "/health", "Health check endpoint"),
    Public("GET", "/public/videos", "List public videos"),
    Public("GET", "/public/videos/:videoID", "Get public video details"),
    Public("GET", "/videos", "List user's videos"),
    Public("GET", "/videos/:videoID", "Get video details"),
    Public("POST", "/videos", "Create new video metadata"),
    Public("PUT", "/videos/:videoID", "Update video metadata"),
    Public("DELETE", "/videos/:videoID", "Delete video")]

  function MetadataService(baseURL: string): Service
  {
    Service(baseURL, MetadataEndpoints, false)
  }

  const UploadEndpoints: seq<EndpointConfig> := [
    Public("GET", "/health", "Health check endpoint"),
    EndpointConfig("POST", "/videos", None, "Upload a new video"),
    EndpointConfig("POST", "/videos/process", None, "Process uploaded video")]

  function UploadService(baseURL: string): Service
  {
    Service(baseURL, UploadEndpoints, true)
  }

  const TranscoderEndpoints: seq<EndpointConfig> := [
    Public("GET", "/health", "Health check endpoint"),
    Public("GET", "/status", "Get transcoder status"),
    EndpointConfig("POST", "/jobs", None, "Create new transcoding job"),
    EndpointConfig("GET", "/jobs/:jobID", None, "Get transcoding job status")]

  function TranscoderService(baseURL: string): Service
  {
    Service(baseURL, TranscoderEndpoints, true)
  }

  /** The services in the order `ConfigureRoutes` adds them. */
  const ServiceNames: seq<string> := ["auth", "streaming", "metadata", "upload", "transcoder"]

  /** The table `ConfigureRoutes` builds. */
  function Definitions(config: map<string, string>): map<string, Service>
  {
    map["auth" := AuthService(ConfigValue(config, "auth")),
        "streaming" := StreamingService(ConfigValue(config, "streaming")),
        "metadata" := MetadataService(ConfigValue(config, "metadata")),
        "upload" := UploadService(ConfigValue(config, "upload")),
        "transcoder" := TranscoderService(ConfigValue(config, "transcoder"))]
  }

  method ConfigureAuthRoutes(router: RouterConfig, baseURL: string)
    modifies router
    ensures "auth" in router.services && fresh(router.services["auth"])
    ensures router.services == old(router.services)["auth" := router.services["auth"]]
    ensures router.services["auth"].AsValue() == AuthService(baseURL)
  {
    var auth := router.AddService("auth", baseURL, false);
    var _ := auth.AddEndpoint("GET", "/google/login", "Google OAuth login", Some(false));
    var _ := auth.AddEndpoint("GET", "/google/callback", "Google OAuth callback", Some(false));
    var _ := auth.AddEndpoint("GET", "/health", "Health check endpoint", Some(false));
    var _ := auth.AddEndpoint("POST", "/refresh", "Refresh authentication token", Some(true));
    var _ := auth.AddEndpoint("POST", "/logout", "Logout and invalidate token", Some(true));
  }

  method ConfigureStreamingRoutes(router: RouterConfig, baseURL: string)
    modifies router
    ensures "streaming" in router.services && fresh(router.services["streaming"])
    ensures router.services == old(router.services)["streaming" := router.services["streaming"]]
    ensures router.services["streaming"].AsValue() == StreamingService(baseURL)
  {
    var streaming := router.AddService("streaming", baseURL, false);
    var _ := streaming.AddEndpoint("GET", "/health", "Health check endpoint", Some(false));
    var _ := streaming.AddEndpoint("GET", "/videos/:videoID", "Get video by ID", Some(false));
    var _ := streaming.AddEndpoint("GET", "/videos/:videoID/thumbnail", "Get video thumbnail", Some(false));
    var _ := streaming.AddEndpoint("GET", "/videos/:videoID/hls/manifest", "Get HLS manifest", Some(false));
    var _ := streaming.AddEndpoint("GET", "/videos/:videoID/hls/:resolution/playlist", "Get HLS playlist for specific resolution", Some(false));
    var _ := streaming.AddEndpoint("GET", "/videos/:videoID/hls/:resolution/:segment", "Get HLS segment", Some(false));
    var _ := streaming.AddEndpoint("GET", "/videos/:videoID/hls/segments/:segment", "Get HLS segment directly", Some(false));
    var _ := streaming.AddEndpoint("GET", "/videos/:videoID/mp4", "Get MP4 video", Some(false));
    var _ := streaming.AddEndpoint("GET", "/videos/:videoID/mp4/qualities", "List available MP4 qualities", Some(false));
  }

  method ConfigureMetadataRoutes(router: RouterConfig, baseURL: string)
    modifies router
    ensures "metadata" in router.services && fresh(router.services["metadata"])
    ensures router.services == old(router.services)["metadata" := router.services["metadata"]]
    ensures router.services["metadata"].AsValue() == MetadataService(baseURL)
  {
    var metadata := router.AddService("metadata", baseURL, false);
    var _ := metadata.AddEndpoint("GET", "/health", "Health check endpoint", Some(false));
    var _ := metadata.AddEndpoint("GET", "/public/videos", "List public videos", Some(false));
    var _ := metadata.AddEndpoint("GET", "/public/videos/:videoID", "Get public video details", Some(false));
    var _ := metadata.AddEndpoint("GET", "/videos", "List user's videos", Some(false));
    var _ := metadata.AddEndpoint("GET", "/videos/:videoID", "Get video details", Some(false));
    var _ := metadata.AddEndpoint("POST", "/videos", "Create new video metadata", Some(false));
    var _ := metadata.AddEndpoint("PUT", "/videos/:videoID", "Update video metadata", Some(false));
    var _ := metadata.AddEndpoint("DELETE", "/videos/:videoID", "Delete video", Some(false));
  }

  method ConfigureUploadRoutes(router: RouterConfig, baseURL: string)
    modifies router
    ensures "upload" in router.services && fresh(router.services["upload"])
    ensures router.services == old(router.services)["upload" := router.services["upload"]]
    ensures router.services["upload"].AsValue() == UploadService(baseURL)
  {
    var upload := router.AddService("upload", baseURL, true);
    var _ := upload.AddEndpoint("GET", "/health", "Health check endpoint", Some(false));
    var _ := upload.AddEndpoint("POST", "/videos", "Upload a new video", None);
    var _ := upload.AddEndpoint("POST", "/videos/process", "Process uploaded video", None);
  }

  method ConfigureTranscoderRoutes(router: RouterConfig, baseURL: string)
    modifies router
    ensures "transcoder" in router.services && fresh(router.services["transcoder"])
    ensures router.services == old(router.services)["transcoder" := router.services["transcoder"]]
    ensures router.services["transcoder"].AsValue() == TranscoderService(baseURL)
  {
    var transcoder := router.AddService("transcoder", baseURL, true);
    var _ := transcoder.AddEndpoint("GET", "/health", "Health check endpoint", Some(false));
    var _ := transcoder.AddEndpoint("GET", "/status", "Get transcoder status", Some(false));
    var _ := transcoder.AddEndpoint("POST", "/jobs", "Create new transcoding job", None);
    var _ := transcoder.AddEndpoint("GET", "/jobs/:jobID", "Get transcoding job status", None);
  }

  /** `ConfigureRoutes`: the five services, each with the base URL configured for it. */
  method ConfigureRoutes(config: map<string, string>) returns (router: RouterConfig)
    ensures fresh(router)
    ensures router.Table() == Definitions(config)
  {
    router := new RouterConfig();
    ConfigureAuthRoutes(router, ConfigValue(config, "auth"));
    var auth := router.services["auth"];
    ConfigureStreamingRoutes(router, ConfigValue(config, "streaming"));
    var streaming := router.services["streaming"];
    ConfigureMetadataRoutes(router, ConfigValue(config, "metadata"));
    var metadata := router.services["metadata"];
    ConfigureUploadRoutes(router, ConfigValue(config, "upload"));
    var upload := router.services["upload"];
    ConfigureTranscoderRoutes(router, ConfigValue(config, "transcoder"));
    var transcoder := router.services["transcoder"];
    TableOfServices(router, config, auth, streaming, metadata, upload, transcoder);
  }

  /** A router holding exactly the five configured services has `Definitions` as its table. */
  lemma TableOfServices(router: RouterConfig, config: map<string, string>,
                        auth: ServiceConfig, streaming: ServiceConfig, metadata: ServiceConfig,
                        upload: ServiceConfig, transcoder: ServiceConfig)
    requires router.services == map["auth" := auth, "streaming" := streaming, "metadata" := metadata,
                                    "upload" := upload, "transcoder" := transcoder]
    requires auth.AsValue() == AuthService(ConfigValue(config, "auth"))
    requires streaming.AsValue() == StreamingService(ConfigValue(config, "streaming"))
    requires metadata.AsValue() == MetadataService(ConfigValue(config, "metadata"))
    requires upload.AsValue() == UploadService(ConfigValue(config, "upload"))
    requires transcoder.AsValue() == TranscoderService(ConfigValue(config, "transcoder"))
    ensures router.Table() == Definitions(config)
  {
  }

  /** Five services under their own names, with their configured base URLs and
      5, 9, 8, 3 and 4 endpoints. */
  lemma FiveServices(config: map<string, string>)
    ensures Definitions(config).Keys == {"auth", "streaming", "metadata", "upload", "transcoder"}
    ensures forall k :: k in Definitions(config) ==> Definitions(config)[k].baseURL == ConfigValue(config, k)
    ensures |Definitions(config)["auth"].endpoints| == 5 && |Definitions(config)["streaming"].endpoints| == 9
    ensures |Definitions(config)["metadata"].endpoints| == 8 && |Definitions(config)["upload"].endpoints| == 3
    ensures |Definitions(config)["transcoder"].endpoints| == 4
  {
  }

  /** The endpoints that need a token, as (service, method, path). */
  const ProtectedEndpoints: set<(string, string, string)> :=
    {("auth", "POST", "/refresh"), ("auth", "POST", "/logout"),
     ("upload", "POST", "/videos"), ("upload", "POST", "/videos/process"),
     ("transcoder", "POST", "/jobs"), ("transcoder", "GET", "/jobs/:jobID")}

  /** Whether `EffectiveAuth` holds for exactly the listed endpoints of a service. */
  predicate ProtectedExactly(name: string, svc: Service)
  {
    forall j :: 0 <= j < |svc.endpoints| ==>
      (EffectiveAuth(svc.requireAuth, svc.endpoints[j])
       <==> (name, svc.endpoints[j].httpMethod, svc.endpoints[j].path) in ProtectedEndpoints)
  }

  /** Exactly six endpoints need a token: refresh and logout, the two upload posts, and
      the two job endpoints; every other endpoint is served without one. */
  lemma SixProtectedEndpoints(config: map<string, string>)
    ensures forall k :: k in Definitions(config) ==> ProtectedExactly(k, Definitions(config)[k])
    ensures |ProtectedEndpoints| == 6
  {
    var t := Definitions(config);
    AuthProtected(t["auth"]);
    StreamingProtected(t["streaming"]);
    MetadataProtected(t["metadata"]);
    UploadProtected(t["upload"]);
    TranscoderProtected(t["transcoder"]);
  }

  lemma AuthProtected(svc: Service)
    requires svc.endpoints == AuthEndpoints && !svc.requireAuth
    ensures ProtectedExactly("auth", svc)
  {
  }

  lemma StreamingProtected(svc: Service)
    requires svc.endpoints == StreamingEndpoints && !svc.requireAuth
    ensures ProtectedExactly("streaming", svc)
  {
  }

  lemma MetadataProtected(svc: Service)
    requires svc.endpoints == MetadataEndpoints && !svc.requireAuth
    ensures ProtectedExactly("metadata", svc)
  {
  }

  lemma UploadProtected(svc: Service)
    requires svc.endpoints == UploadEndpoints && svc.requireAuth
    ensures ProtectedExactly("upload", svc)
  {
  }

  lemma TranscoderProtected(svc: Service)
    requires svc.endpoints == TranscoderEndpoints && svc.requireAuth
    ensures ProtectedExactly("transcoder", svc)
  {
  }

  /** The upload and transcoder services require a token by default, but their health
      (and the transcoder's status) endpoints opt out explicitly. */
  lemma HealthOptsOut(config: map<string, string>)
    ensures Definitions(config)["upload"].requireAuth && Definitions(config)["transcoder"].requireAuth
    ensures !EffectiveAuth(true, Definitions(config)["upload"].endpoints[0])
    ensures !EffectiveAuth(true, Definitions(config)["transcoder"].endpoints[0])
    ensures !EffectiveAuth(true, Definitions(config)["transcoder"].endpoints[1])
  {
  }
}
