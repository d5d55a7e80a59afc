/** The database configuration of app.py:9-12: `DATABASE_URL` with a local
    SQLite default, and the rewrite of Render's `postgres://` scheme into
    the `postgresql://` that SQLAlchemy accepts. */
module Config {
  import opened Wrappers
  import opened Text

  const OldScheme := "postgres://"
  const NewScheme := "postgresql://"
  const DefaultDatabaseUrl := "sqlite:///products.db"

  /** app.py:11-12: `replace(..., 1)` under a `startswith` guard. The
      rewrite touches a URL only when it starts with `postgres://`, and then
      replaces just that prefix: the rest is kept as it was. */
  function NormalizeDatabaseUrl(url: string): (r: string)
    ensures StartsWith(url, OldScheme) ==> r == NewScheme + url[|OldScheme|..]
    ensures !StartsWith(url, OldScheme) ==> r == url
    ensures r != url <==> StartsWith(url, OldScheme)
  {
    if StartsWith(url, OldScheme) then ReplaceFirst(url, OldScheme, NewScheme) else url
  }

  /** The environment lookup is a parameter: `os.environ.get('DATABASE_URL',
      default)` then the rewrite. */
  function DatabaseUrl(env: Option<string>): (r: string)
    ensures env.None? ==> r == DefaultDatabaseUrl
    ensures env.Some? && StartsWith(env.value, OldScheme) ==>
              r == NewScheme + env.value[|OldScheme|..]
    ensures env.Some? && !StartsWith(env.value, OldScheme) ==> r == env.value
  {
    assert DefaultDatabaseUrl[..|OldScheme|][0] != OldScheme[0];
    match env
    case None => NormalizeDatabaseUrl(DefaultDatabaseUrl)
    case Some(url) => NormalizeDatabaseUrl(url)
  }

  /** A rewritten URL starts with `postgresql://`, which does not start with
      `postgres://`, so applying the rewrite twice equals applying it once. */
  lemma RewriteIdempotent(url: string)
    ensures NormalizeDatabaseUrl(NormalizeDatabaseUrl(url)) == NormalizeDatabaseUrl(url)
  {
    var r := NormalizeDatabaseUrl(url);
    if StartsWith(url, OldScheme) {
      assert r[8] == 'q';
      assert !StartsWith(r, OldScheme);
    }
  }
}
