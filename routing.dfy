/** Path handling of the backend in `backend/main.py`: the middleware that lets every route also
  * answer under `/api`, and the single-page-app catch-all that refuses API-looking paths. */
module Routing {
  import opened Text

  /** `ApiPrefixMiddleware.dispatch`: `/api` becomes `/`, `/api/...` loses its first four
    * characters, and every other path is left alone. */
  function RewritePath(path: string): string {
    if path == "/api" then "/"
    else if StartsWith(path, "/api/") then path[4..]
    else path
  }

  /** The three cases of the rewrite, and exactly the other paths are left unchanged. */
  lemma RewriteCases(path: string, rest: string)
    ensures RewritePath("/api") == "/"
    ensures RewritePath("/api/" + rest) == "/" + rest
    ensures RewritePath(path) == path <==> path != "/api" && !StartsWith(path, "/api/")
  {
    assert ("/api/" + rest)[..5] == "/api/";
    assert ("/api/" + rest)[4..] == "/" + rest;
    if path != "/api" && StartsWith(path, "/api/") {
      assert |RewritePath(path)| == |path| - 4;
    }
  }

  /** A rewritten path starts with a slash, like every route the application declares. */
  lemma RewriteKeepsLeadingSlash(path: string)
    requires StartsWith(path, "/")
    ensures StartsWith(RewritePath(path), "/")
  {
    if path != "/api" && StartsWith(path, "/api/") {
      assert path[4..][..1] == path[..5][4..5];
    }
  }

  /** The first path segments the catch-all treats as API routes. */
  const ApiPaths: seq<string> := [
    "docs", "openapi.json", "redoc", "health",
    "admin", "auth", "products", "orders", "upload", "upload-simple",
    "search", "categories", "uploads", "api"
  ]

  /** `any(path_name.startswith(api_path) for api_path in api_paths)`. */
  predicate IsApiPath(pathName: string) {
    exists k :: 0 <= k < |ApiPaths| && StartsWith(pathName, ApiPaths[k])
  }

  /** What `serve_spa` does with a path: 404 for an API-looking path, the app otherwise. */
  datatype SpaAnswer = NotFound | ServeApp

  function ServeSpa(pathName: string): (r: SpaAnswer) {
    if IsApiPath(pathName) then NotFound else ServeApp
  }

  /** The test is a plain prefix test: any path beginning with one of the names, even inside a
    * longer word, is refused, and a path is served only when it begins with none of them. */
  lemma SpaRefusesApiPrefixes(pathName: string, k: nat, rest: string)
    requires k < |ApiPaths|
    ensures ServeSpa(ApiPaths[k] + rest) == NotFound
    ensures ServeSpa(pathName) == ServeApp <==>
              forall j :: 0 <= j < |ApiPaths| ==> !StartsWith(pathName, ApiPaths[j])
  {
    assert (ApiPaths[k] + rest)[..|ApiPaths[k]|] == ApiPaths[k];
  }
}
