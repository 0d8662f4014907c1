/** plushgin/render.go, plushgin/helpers.go and plushgin/context.go: a gin
    HTML renderer that loads plush templates from a directory through the
    template cache, with a table of helper functions merged into every
    template context. The plush template language itself is a parameter
    (`plush`), and the template directory is the `Disk` of the Host
    module. */
module PlushGin {
  import opened Common
  import opened Host
  import opened PlushCache

  const HtmlContentType: string := "text/html; charset=utf-8"
  const ContentTypeHeader: string := "Content-Type"
  const PartialFeederName: string := "partialFeeder"

  datatype RenderOptions = RenderOptions(templateDir: string, contentType: string, maxCacheEntries: int)

  /** A registered helper: the renderer's own `partial` method, or a
      function supplied through `AddHelper` (told apart by a tag). */
  datatype Helper = PartialFeeder | Custom(tag: nat)

  /** A value in a template context (a gin.H or a plush.Context). */
  datatype Value =
    | Scalar(text: string)
    | ErrorTable(errors: map<int, string>)
    | HelperFn(helper: Helper)

  /** The `data interface{}` handed to `Instance`: a gin.H, or anything
      else (nil included). */
  datatype InstanceData = H(h: map<string, Value>) | NotH

  /** The outcome of `Render`: written, or a panic with the failure of
      loading the template or of plush. */
  datatype RenderOutcome = Rendered | LoadPanic(fs: FsError) | PlushPanic(message: string)

  /** Reference definition of `NewContext`: every data key and every helper
      name, the helper taking precedence. */
  function MergedContext(data: map<string, Value>, helpers: map<string, Helper>): map<string, Value>
  {
    map k | k in data.Keys + helpers.Keys :: if k in helpers then HelperFn(helpers[k]) else data[k]
  }

  /** `NewContext(p, c)`: the context starts as the data and then every
      helper is set on it. */
  method NewContext(helpers: map<string, Helper>, data: map<string, Value>) returns (ctx: map<string, Value>)
    ensures ctx == MergedContext(data, helpers)
  {
    ctx := data;
    var rest := helpers.Keys;
    while |rest| > 0
      invariant rest <= helpers.Keys
      invariant ctx == MergedContext(data, helpers - rest)
      decreases rest
    {
      ghost var member := SomeMember(rest);
      var fn :| fn in rest;
      assert helpers - (rest - {fn}) == (helpers - rest)[fn := helpers[fn]];
      ctx := ctx[fn := HelperFn(helpers[fn])];
      rest := rest - {fn};
    }
    assert helpers - rest == helpers;
  }

  /** The context holds exactly the data keys and the helper names. */
  lemma MergedKeys(data: map<string, Value>, helpers: map<string, Helper>)
    ensures MergedContext(data, helpers).Keys == data.Keys + helpers.Keys
  {
  }

  /** Every helper name maps to its helper, even when the data has the
      same key. */
  lemma HelperWins(data: map<string, Value>, helpers: map<string, Helper>, k: string)
    requires k in helpers
    ensures MergedContext(data, helpers)[k] == HelperFn(helpers[k])
  {
  }

  /** Data keys that are not helper names keep their data values. */
  lemma DataKept(data: map<string, Value>, helpers: map<string, Helper>, k: string)
    requires k in data && k !in helpers
    ensures MergedContext(data, helpers)[k] == data[k]
  {
  }

  /** With no helpers the context is exactly the data. */
  lemma NoHelpersIsData(data: map<string, Value>)
    ensures MergedContext(data, map[]) == data
  {
  }

  /** The header map after `WriteContentType`: Content-Type is set only
      when it is absent or has no value. */
  function WithContentType(header: map<string, seq<string>>, contentType: string): (h: map<string, seq<string>>)
    ensures ContentTypeHeader in h
    ensures ContentTypeHeader !in header || |header[ContentTypeHeader]| == 0 ==> h[ContentTypeHeader] == [contentType]
    ensures ContentTypeHeader in header && |header[ContentTypeHeader]| > 0 ==> h == header
    ensures forall k :: k != ContentTypeHeader ==> (k in h <==> k in header)
    ensures forall k :: k != ContentTypeHeader && k in header ==> h[k] == header[k]
  {
    if ContentTypeHeader !in header || |header[ContentTypeHeader]| == 0 then header[ContentTypeHeader := [contentType]]
    else header
  }

  /** Once set, the content type stays: a second write changes nothing,
      whatever type it would set. */
  lemma ContentTypeSetOnce(header: map<string, seq<string>>, first: string, second: string)
    ensures WithContentType(WithContentType(header, first), second) == WithContentType(header, first)
  {
  }

  /** An http.ResponseWriter: its header map and what has been written. */
  class ResponseWriter {
    var header: map<string, seq<string>>
    var body: string

    constructor (header: map<string, seq<string>>)
      ensures this.header == header && body == ""
    {
      this.header := header;
      body := "";
    }

    method Write(bytes: string)
      modifies this
      ensures header == old(header) && body == old(body) + bytes
    {
      body := body + bytes;
    }
  }

  /** `Plush2Render`. */
  class Plush2Render {
    const options: RenderOptions
    var name: string
    var context: map<string, Value>
    const cache: TemplateCache
    /** `p.helpers`, None while the map is nil. */
    var helpers: Option<map<string, Helper>>

    /** The helper table as a Go map read sees it (a nil map is empty). */
    function HelperTable(): map<string, Helper>
      reads this
    {
      if helpers.Some? then helpers.value else map[]
    }

    /** `New(options)`: a fresh cache of `MaxCacheEntries` entries and the
        default helpers. */
    constructor New(options: RenderOptions)
      ensures this.options == options && name == "" && context == map[]
      ensures fresh(cache) && cache.max == options.maxCacheEntries
      ensures cache.entries == map[] && cache.recency == []
      ensures options.maxCacheEntries > 0 ==> cache.Valid()
      ensures helpers == Some(map[PartialFeederName := PartialFeeder])
    {
      this.options := options;
      cache := new TemplateCache(options.maxCacheEntries);
      name := "";
      context := map[];
      helpers := None;
      new;
      InitDefaultHelpers();
    }

    /** The renderer `Instance` returns: the parent's options and cache,
        its own name and context, and no helper table. */
    constructor Derived(options: RenderOptions, cache: TemplateCache, name: string, context: map<string, Value>)
      ensures this.options == options && this.cache == cache
      ensures this.name == name && this.context == context && helpers == None
    {
      this.options := options;
      this.cache := cache;
      this.name := name;
      this.context := context;
      helpers := None;
    }

    /** `AddHelper(fn, f)`: the map is allocated on first use, then `fn` is
        bound to `f`, replacing an earlier binding of the same name. */
    method AddHelper(fn: string, f: Helper)
      modifies this
      ensures helpers == Some(old(HelperTable())[fn := f])
      ensures name == old(name) && context == old(context)
    {
      if helpers.None? {
        helpers := Some(map[]);
      }
      helpers := Some(helpers.value[fn := f]);
    }

    /** `initDefaultHelpers`: registers `partial` as "partialFeeder". */
    method InitDefaultHelpers()
      modifies this
      ensures helpers == Some(old(HelperTable())[PartialFeederName := PartialFeeder])
      ensures name == old(name) && context == old(context)
    {
      AddHelper(PartialFeederName, PartialFeeder);
    }

    /** What `getCache` returns, given the cache contents before the call:
        the cached bytes on a hit outside debug mode, otherwise the file
        `TemplateDir/name` read from disk. */
    function Load(entries: map<string, string>, templateName: string, debug: bool, disk: Disk): Result<string, FsError>
    {
      if !debug && templateName in entries then Success(entries[templateName])
      else ReadFile(disk, JoinPath(options.templateDir, templateName))
    }

    /** The cache after `getCache(name)`: the name looked up (and so made
        the most recently used), then the bytes read from disk added when
        there was a read and it succeeded. */
    function CacheAfterLoad(s: LruState, max: int, templateName: string, debug: bool, disk: Disk): LruState
      requires max > 0
    {
      var looked := LruGet(s, templateName).0;
      var loaded := Load(s.entries, templateName, debug, disk);
      if (debug || templateName !in s.entries) && loaded.Success? then LruAdd(looked, max, templateName, loaded.value)
      else looked
    }

    /** `getCache(name)`, `debug` standing for gin.Mode() == "debug". The
        result is `Load`; `read` tells whether the disk was read. A hit
        outside debug mode reads nothing and leaves the contents alone; a
        successful read is stored under `name`; a failed read changes no
        contents. */
    method GetCache(templateName: string, debug: bool, disk: Disk) returns (buf: Result<string, FsError>, read: bool)
      modifies cache
      requires cache.Valid()
      ensures cache.Valid()
      ensures buf == Load(old(cache.entries), templateName, debug, disk)
      ensures read <==> debug || templateName !in old(cache.entries)
      ensures !read || buf.Failure? ==> cache.entries == old(cache.entries)
      ensures buf.Success? ==> templateName in cache.entries && cache.entries[templateName] == buf.value
      ensures cache.State() == CacheAfterLoad(old(cache.State()), cache.max, templateName, debug, disk)
    {
      var cached := cache.Get(templateName);
      if cached.None? || debug {
        var filename := JoinPath(options.templateDir, templateName);
        buf := ReadFile(disk, filename);
        read := true;
        if buf.Failure? {
          return;
        }
        cache.Add(templateName, buf.value);
        return;
      }
      buf := Success(cached.value);
      read := false;
    }

    /** Outside debug mode, a template that loaded once is served from the
        cache the next time, without touching the disk. */
    method GetCacheTwice(templateName: string, disk: Disk) returns (first: Result<string, FsError>, second: Result<string, FsError>, secondRead: bool)
      modifies cache
      requires cache.Valid()
      ensures first.Success? ==> !secondRead && second == first
    {
      var firstRead;
      first, firstRead := GetCache(templateName, false, disk);
      second, secondRead := GetCache(templateName, false, disk);
    }

    /** `partial(n)`: the template "_" + n through the cache, as a string,
        or "" with the load error. */
    method Partial(n: string, debug: bool, disk: Disk) returns (s: string, err: Option<FsError>)
      modifies cache
      requires cache.Valid()
      ensures cache.Valid()
      ensures var loaded := Load(old(cache.entries), "_" + n, debug, disk);
              && (loaded.Success? ==> s == loaded.value && err.None?)
              && (loaded.Failure? ==> s == "" && err == Some(loaded.error))
      ensures cache.State() == CacheAfterLoad(old(cache.State()), cache.max, "_" + n, debug, disk)
    {
      var buf, _ := GetCache("_" + n, debug, disk);
      if buf.Failure? {
        return "", Some(buf.error);
      }
      return buf.value, None;
    }

    /** `Instance(name, data)`: a renderer for one request, sharing this
        one's options and cache; `data.(gin.H)` panics (None here) when the
        data is not a gin.H. */
    method Instance(templateName: string, data: InstanceData) returns (r: Option<Plush2Render>)
      ensures r.None? <==> data.NotH?
      ensures r.Some? ==> fresh(r.value) && r.value.options == options && r.value.cache == cache
      ensures r.Some? ==> r.value.name == templateName && r.value.helpers == None
      ensures r.Some? ==> r.value.context == MergedContext(data.h, HelperTable())
    {
      if data.NotH? {
        return None;
      }
      var ctx := NewContext(HelperTable(), data.h);
      var p := new Plush2Render.Derived(options, cache, templateName, ctx);
      return Some(p);
    }

    /** `WriteContentType(w)`. */
    method WriteContentType(w: ResponseWriter)
      modifies w
      ensures w.header == WithContentType(old(w.header), options.contentType)
      ensures w.body == old(w.body)
    {
      var header := w.header;
      if ContentTypeHeader !in header || |header[ContentTypeHeader]| == 0 {
        w.header := header[ContentTypeHeader := [options.contentType]];
      }
    }

    /** `Render(w)`: load the template, run plush on it with the context,
        set the content type and write. A load or plush failure panics
        before anything is written. */
    method Render(w: ResponseWriter, debug: bool, disk: Disk, plush: (string, map<string, Value>) -> Result<string, string>)
      returns (outcome: RenderOutcome)
      modifies w, cache
      requires cache.Valid()
      ensures cache.Valid()
      ensures var loaded := Load(old(cache.entries), name, debug, disk);
              && (loaded.Failure? ==> outcome == LoadPanic(loaded.error))
              && (loaded.Success? && plush(loaded.value, context).Failure? ==>
                    outcome == PlushPanic(plush(loaded.value, context).error))
              && (outcome.Rendered? ==>
                    loaded.Success? && plush(loaded.value, context).Success?
                    && w.header == WithContentType(old(w.header), options.contentType)
                    && w.body == old(w.body) + plush(loaded.value, context).value)
      ensures !outcome.Rendered? ==> w.header == old(w.header) && w.body == old(w.body)
      ensures var loaded := Load(old(cache.entries), name, debug, disk);
              outcome == if loaded.Failure? then LoadPanic(loaded.error)
                         else if plush(loaded.value, context).Failure? then PlushPanic(plush(loaded.value, context).error)
                         else Rendered
      ensures cache.State() == CacheAfterLoad(old(cache.State()), cache.max, name, debug, disk)
    {
      var buf, _ := GetCache(name, debug, disk);
      if buf.Failure? {
        return LoadPanic(buf.error);
      }
      var rendered := plush(buf.value, context);
      if rendered.Failure? {
        return PlushPanic(rendered.error);
      }
      WriteContentType(w);
      w.Write(rendered.value);
      return Rendered;
    }
  }

  /** `Default()`: templates under "templates", the HTML content type and
      at most 128 cached templates. */
  method Default() returns (p: Plush2Render)
    ensures fresh(p) && fresh(p.cache)
    ensures p.options == RenderOptions("templates", HtmlContentType, 128)
    ensures p.cache.Valid() && p.cache.max == 128 && p.cache.entries == map[]
    ensures p.HelperTable() == map[PartialFeederName := PartialFeeder]
  {
    p := new Plush2Render.New(RenderOptions("templates", HtmlContentType, 128));
  }
}
