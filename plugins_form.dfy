/** The plugins admin form (lib/plugins/plugin_manager/plugins_form_html.py):
    the GET and POST dispatch of /api/pluginsform, the PluginsFormHTML
    object with its area tab, the plugin listing and the plugin detail page.
    Pages are abstract: a listing is its sequence of tiles, a detail page the
    fields it shows; the HTML around them is not modelled. */
module PluginsForm {
  import opened Common
  import opened PluginCatalog
  import opened PluginOrder

  // ---------------------------------------------------------------------
  // The thumbnail size table

  /** lookup_config_size: the image width for the configured thumbnail size;
      None for 'Full-Size' and for any text the table does not know. */
  function LookupConfigSize(sizeText: string): (r: Option<nat>)
    ensures r.Some? ==> r.value in {0, 16, 48, 128, 180, 270}
  {
    if sizeText == "None" then Some(0)
    else if sizeText == "Tiny(16)" then Some(16)
    else if sizeText == "Small(48)" then Some(48)
    else if sizeText == "Medium(128)" then Some(128)
    else if sizeText == "Large(180)" then Some(180)
    else if sizeText == "X-Large(270)" then Some(270)
    else if sizeText == "Full-Size" then None
    else None
  }

  /** The configuration text for each width the table can produce. */
  function SizeLabel(width: nat): Option<string> {
    if width == 0 then Some("None")
    else if width == 16 then Some("Tiny(16)")
    else if width == 48 then Some("Small(48)")
    else if width == 128 then Some("Medium(128)")
    else if width == 180 then Some("Large(180)")
    else if width == 270 then Some("X-Large(270)")
    else None
  }

  /** The table is one-to-one: a text maps to a width exactly when that
      width's label is the text. */
  lemma SizeTableRoundTrip(sizeText: string, width: nat)
    ensures LookupConfigSize(sizeText) == Some(width) <==> SizeLabel(width) == Some(sizeText)
  {
  }

  /** 'Full-Size' has no width, like an unknown text. */
  lemma FullSizeHasNoWidth()
    ensures LookupConfigSize("Full-Size") == None
  {
  }

  // ---------------------------------------------------------------------
  // The plugin listing

  /** One button of the listing. upgradeBadge holds the text after
      'Upgrade to ' when the badge is shown. */
  datatype Tile = Tile(
    pluginId: string,
    repoId: string,
    name: string,
    imageWidth: Option<nat>,
    upgradeBadge: Option<string>,
    internal: bool,
    versionText: string)

  /** The tile of one definition; its 'latest' key must exist. */
  function TileOf(p: PluginDefn, installed: bool, width: Option<nat>): (t: Tile)
    requires p.version.latest.Some?
    ensures t.upgradeBadge.Some? <==> installed && p.version.latest.value != p.version.current
    ensures t.upgradeBadge.Some? ==> t.upgradeBadge.value == Display(p.version.latest.value)
    ensures !installed ==> t.versionText == ""
    ensures installed ==> t.versionText == Display(p.version.current)
    ensures t.internal <==> !p.external
    ensures t.pluginId == p.id && t.repoId == p.repoId && t.name == p.name && t.imageWidth == width
  {
    var latest := p.version.latest.value;
    Tile(p.id, p.repoId, p.name, width,
         if installed && latest != p.version.current then Some(Display(latest)) else None,
         !p.external,
         if installed then Display(p.version.current) else "")
  }

  predicate AllHaveLatest(ps: seq<PluginDefn>) {
    forall i :: 0 <= i < |ps| ==> ps[i].version.latest.Some?
  }

  /** The tiles of the given definitions in order; KeyError as soon as one
      lacks 'latest'. */
  function Tiles(ps: seq<PluginDefn>, installed: bool, width: Option<nat>): (r: Result<seq<Tile>>)
    ensures r.Raised? <==> !AllHaveLatest(ps)
    ensures r.Raised? ==> r.error == KeyError
    ensures r.Ok? ==> |r.value| == |ps|
  {
    if AllHaveLatest(ps) then
      Ok(seq(|ps|, i requires 0 <= i < |ps| && ps[i].version.latest.Some? => TileOf(ps[i], installed, width)))
    else Raised(KeyError)
  }

  /** What form_plugins lists: the installed (or uninstalled) definitions,
      sorted by id. */
  function Listing(db: seq<PluginDefn>, installed: bool, width: Option<nat>): Result<seq<Tile>> {
    Tiles(ListedDefns(db, installed), installed, width)
  }

  /** The definitions form_plugins lists, in the order it lists them. */
  function ListedDefns(db: seq<PluginDefn>, installed: bool): seq<PluginDefn> {
    SortById(QueryPlugins(db, Some(installed), None, None))
  }

  /** The listed definitions are the database's definitions of the right
      kind, sorted by id. */
  lemma ListedDefnsSpec(db: seq<PluginDefn>, installed: bool)
    ensures forall p :: p in ListedDefns(db, installed) <==> p in db && p.installed == installed
    ensures SortedById(ListedDefns(db, installed))
  {
    var selected := QueryPlugins(db, Some(installed), None, None);
    var sorted := SortById(selected);
    SortByIdSpec(selected);
    forall p | p in sorted
      ensures p in selected
    {
      assert p in multiset(sorted);
    }
    forall p | p in selected
      ensures p in sorted
    {
      assert p in multiset(selected);
    }
  }

  /** The listing fails with KeyError exactly when a definition of the right
      kind lacks 'latest'. */
  lemma ListingFails(db: seq<PluginDefn>, installed: bool, width: Option<nat>)
    ensures Listing(db, installed, width).Raised? <==>
              exists p :: p in db && p.installed == installed && p.version.latest.None?
  {
    ListedDefnsSpec(db, installed);
    var sorted := ListedDefns(db, installed);
    if Listing(db, installed, width).Raised? {
      var i :| 0 <= i < |sorted| && sorted[i].version.latest.None?;
      assert sorted[i] in sorted;
    }
  }

  /** The i-th tile is the tile of the i-th listed definition. */
  lemma ListingAt(db: seq<PluginDefn>, installed: bool, width: Option<nat>, i: nat)
    requires Listing(db, installed, width).Ok? && i < |Listing(db, installed, width).value|
    ensures i < |ListedDefns(db, installed)| && ListedDefns(db, installed)[i].version.latest.Some?
    ensures Listing(db, installed, width).value[i] == TileOf(ListedDefns(db, installed)[i], installed, width)
  {
  }

  /** The tiles come in ascending id order. */
  lemma ListingOrdered(db: seq<PluginDefn>, installed: bool, width: Option<nat>)
    requires Listing(db, installed, width).Ok?
    ensures var ts := Listing(db, installed, width).value;
            forall i, j :: 0 <= i < j < |ts| ==> StrLe(ts[i].pluginId, ts[j].pluginId)
  {
    ListedDefnsSpec(db, installed);
    var ts := Listing(db, installed, width).value;
    forall i, j | 0 <= i < j < |ts|
      ensures StrLe(ts[i].pluginId, ts[j].pluginId)
    {
      ListingAt(db, installed, width, i);
      ListingAt(db, installed, width, j);
    }
  }

  /** Every definition of the right kind has its tile. */
  lemma ListingCovers(db: seq<PluginDefn>, installed: bool, width: Option<nat>, p: PluginDefn)
    requires Listing(db, installed, width).Ok?
    requires p in db && p.installed == installed
    ensures p.version.latest.Some?
    ensures exists i :: 0 <= i < |Listing(db, installed, width).value| &&
                        Listing(db, installed, width).value[i] == TileOf(p, installed, width)
  {
    ListedDefnsSpec(db, installed);
    var sorted := ListedDefns(db, installed);
    var i :| 0 <= i < |sorted| && sorted[i] == p;
    ListingAt(db, installed, width, i);
  }

  /** Every tile is the tile of a definition of the right kind. */
  lemma ListingFromDb(db: seq<PluginDefn>, installed: bool, width: Option<nat>, i: nat)
    requires Listing(db, installed, width).Ok? && i < |Listing(db, installed, width).value|
    ensures exists p :: p in db && p.installed == installed && p.version.latest.Some? &&
                        Listing(db, installed, width).value[i] == TileOf(p, installed, width)
  {
    ListedDefnsSpec(db, installed);
    ListingAt(db, installed, width, i);
    assert ListedDefns(db, installed)[i] in ListedDefns(db, installed);
  }

  /** The catalog tab shows neither badges nor versions. */
  lemma CatalogShowsNoVersion(db: seq<PluginDefn>, width: Option<nat>, i: nat)
    requires Listing(db, false, width).Ok? && i < |Listing(db, false, width).value|
    ensures Listing(db, false, width).value[i].upgradeBadge.None?
    ensures Listing(db, false, width).value[i].versionText == ""
  {
    ListingAt(db, false, width, i);
  }

  /** On the installed tab, a plugin whose latest version differs from its
      current one carries the badge naming the latest version, and one whose
      versions agree carries none. */
  lemma InstalledBadge(db: seq<PluginDefn>, width: Option<nat>, p: PluginDefn)
    requires Listing(db, true, width).Ok?
    requires p in db && p.installed
    ensures p.version.latest.Some?
    ensures exists i :: 0 <= i < |Listing(db, true, width).value| &&
              var t := Listing(db, true, width).value[i];
              && t.pluginId == p.id && t.repoId == p.repoId
              && (t.upgradeBadge.Some? <==> p.version.latest.value != p.version.current)
              && (t.upgradeBadge.Some? ==> t.upgradeBadge.value == Display(p.version.latest.value))
              && t.versionText == Display(p.version.current)
  {
    ListingCovers(db, true, width, p);
  }

  // ---------------------------------------------------------------------
  // The detail page of one plugin

  /** 'latest' after `if not version.get('latest'): version['latest'] = None`. */
  function Normalised(latest: Option<Scalar>): (r: Scalar)
    ensures Truthy(r) <==> latest.Some? && Truthy(latest.value)
    ensures Truthy(r) ==> r == latest.value
    ensures !Truthy(r) ==> r == Null
  {
    if latest.Some? && Truthy(latest.value) then latest.value else Null
  }

  /** The header and the section both normalise; doing it twice is doing it once. */
  lemma NormaliseIdempotent(latest: Option<Scalar>)
    ensures Normalised(Some(Normalised(latest))) == Normalised(latest)
  {
  }

  /** The fields the detail page shows: the header's name, the menu's ids,
      and the section's current version, upgrade button and latest version. */
  datatype Detail = Detail(
    pluginId: string,
    repoId: string,
    name: string,
    currentText: string,
    upgradeOffer: Option<string>,
    latestText: string)

  /** The page shown for a definition whose latest version normalises to latest. */
  function DetailOf(p: PluginDefn, latest: Scalar): (d: Detail)
    ensures d.upgradeOffer.Some? <==> latest != p.version.current
    ensures d.upgradeOffer.Some? ==> d.upgradeOffer.value == d.latestText
    ensures d.latestText == Display(latest) && d.currentText == Display(p.version.current)
    ensures d.pluginId == p.id && d.repoId == p.repoId && d.name == p.name
  {
    Detail(p.id, p.repoId, p.name, Display(p.version.current),
           if latest != p.version.current then Some(Display(latest)) else None,
           Display(latest))
  }

  /** get_plugin: the first definition with the given repo and id, or
      CabernetException('Unknown Plugin: ...') when there is none. */
  function PluginDetail(db: seq<PluginDefn>, repoId: string, pluginId: string): Result<Detail> {
    var found := QueryPlugins(db, None, Some(repoId), Some(pluginId));
    if found == [] then Raised(CabernetException("Unknown Plugin: " + pluginId))
    else Ok(DetailOf(found[0], Normalised(found[0].version.latest)))
  }

  /** The detail page fails exactly for an unknown (repo, id) pair, and
      otherwise shows that plugin, with an upgrade button exactly when the
      normalised latest version differs from the current one. */
  lemma PluginDetailSpec(db: seq<PluginDefn>, repoId: string, pluginId: string)
    ensures PluginDetail(db, repoId, pluginId).Raised? <==>
              forall p :: p in db ==> !(p.repoId == repoId && p.id == pluginId)
    ensures PluginDetail(db, repoId, pluginId).Raised? ==>
              PluginDetail(db, repoId, pluginId).error == CabernetException("Unknown Plugin: " + pluginId)
    ensures PluginDetail(db, repoId, pluginId).Ok? ==>
              var d := PluginDetail(db, repoId, pluginId).value;
              && d.pluginId == pluginId && d.repoId == repoId
              && exists p :: p in db && p.repoId == repoId && p.id == pluginId && d.name == p.name
                             && (d.upgradeOffer.Some? <==> Normalised(p.version.latest) != p.version.current)
  {
    var found := QueryPlugins(db, None, Some(repoId), Some(pluginId));
    if found != [] {
      assert found[0] in found;
    }
  }

  /** A plugin with a current version and no 'latest' key offers
      'Upgrade to None'. */
  lemma UpgradeToNone(p: PluginDefn, c: string)
    requires p.version == VersionInfo(Str(c), None)
    ensures DetailOf(p, Normalised(p.version.latest)).upgradeOffer == Some("None")
  {
  }

  /** The mutable 'version' dictionary of a definition. */
  class VersionRecord {
    var current: Scalar
    var latest: Option<Scalar>

    constructor (v: VersionInfo)
      ensures current == v.current && latest == v.latest
    {
      current := v.current;
      latest := v.latest;
    }

    /** Replace a missing or falsy 'latest' by None, in place. */
    method NormaliseLatest()
      modifies this
      ensures current == old(current)
      ensures latest == Some(Normalised(old(latest)))
    {
      if !(latest.Some? && Truthy(latest.value)) {
        latest := Some(Null);
      }
    }
  }

  // ---------------------------------------------------------------------
  // The form object

  /** str() of the area field. */
  function AreaText(area: Option<string>): string {
    if area.None? then "None" else area.value
  }

  /** The form property: the listing for the selected tab. */
  function AreaForm(db: seq<PluginDefn>, sizeText: string, area: Option<string>): Result<seq<Tile>> {
    if area == Some("My_Plugins") then Listing(db, true, LookupConfigSize(sizeText))
    else if area == Some("Catalog") then Listing(db, false, LookupConfigSize(sizeText))
    else Raised(CabernetException("Unknown Tab: " + AreaText(area)))
  }

  /** The area check is the only source of CabernetException: the form
      raises it exactly for a tab other than My_Plugins and Catalog. */
  lemma AreaFormValidates(db: seq<PluginDefn>, sizeText: string, area: Option<string>)
    ensures AreaForm(db, sizeText, area).Raised? && AreaForm(db, sizeText, area).error.CabernetException? <==>
              area != Some("My_Plugins") && area != Some("Catalog")
    ensures area != Some("My_Plugins") && area != Some("Catalog") ==>
              AreaForm(db, sizeText, area) == Raised(CabernetException("Unknown Tab: " + AreaText(area)))
  {
  }

  /** An abstract page: a listing or a plugin's detail page. */
  datatype Page = ListPage(tiles: seq<Tile>) | DetailPage(detail: Detail)

  class PluginsFormHtml {
    const db: seq<PluginDefn>
    const thumbnailSize: string
    var area: Option<string>

    constructor (db: seq<PluginDefn>, thumbnailSize: string)
      ensures this.db == db && this.thumbnailSize == thumbnailSize && area == None
    {
      this.db := db;
      this.thumbnailSize := thumbnailSize;
      area := None;
    }

    /** form_plugins: one tile per selected definition, in sorted order. */
    method FormPlugins(installed: bool) returns (r: Result<seq<Tile>>)
      ensures r == Listing(db, installed, LookupConfigSize(thumbnailSize))
    {
      var defns := QueryPlugins(db, Some(installed), None, None);
      var sorted := SortById(defns);
      var tiles: seq<Tile> := [];
      var i := 0;
      while i < |sorted|
        invariant 0 <= i <= |sorted| && |tiles| == i
        invariant forall j :: 0 <= j < i ==> sorted[j].version.latest.Some?
        invariant forall j :: 0 <= j < i ==>
                    tiles[j] == TileOf(sorted[j], installed, LookupConfigSize(thumbnailSize))
      {
        var p := sorted[i];
        var imgSize := LookupConfigSize(thumbnailSize);
        if p.version.latest.None? {
          assert !AllHaveLatest(sorted);
          return Raised(KeyError);
        }
        var latest := p.version.latest.value;
        var badge: Option<string> := None;
        var versionText := "";
        if installed {
          if latest != p.version.current {
            badge := Some(Display(latest));
          }
          versionText := Display(p.version.current);
        }
        tiles := tiles + [Tile(p.id, p.repoId, p.name, imgSize, badge, !p.external, versionText)];
        i := i + 1;
      }
      assert AllHaveLatest(sorted);
      assert tiles == Tiles(sorted, installed, LookupConfigSize(thumbnailSize)).value;
      r := Ok(tiles);
    }

    /** The form property. */
    method Form() returns (r: Result<seq<Tile>>)
      ensures r == AreaForm(db, thumbnailSize, area)
    {
      if area == Some("My_Plugins") {
        r := FormPlugins(true);
      } else if area == Some("Catalog") {
        r := FormPlugins(false);
      } else {
        r := Raised(CabernetException("Unknown Tab: " + AreaText(area)));
      }
    }

    /** get: select the tab, then render it. */
    method Get(area: string) returns (r: Result<Page>)
      modifies this
      ensures this.area == Some(area)
      ensures r == AreaPage(db, thumbnailSize, area)
    {
      this.area := Some(area);
      var form := Form();
      r := if form.Ok? then Ok(ListPage(form.value)) else Raised(form.error);
    }

    /** get_plugin, with the normalisation done in place by the header and
        again by the section. */
    method GetPlugin(repoId: string, pluginId: string) returns (r: Result<Page>)
      ensures r == PluginPage(db, repoId, pluginId)
    {
      var defns := QueryPlugins(db, None, Some(repoId), Some(pluginId));
      if defns == [] {
        return Raised(CabernetException("Unknown Plugin: " + pluginId));
      }
      var p := defns[0];
      var version := new VersionRecord(p.version);
      version.NormaliseLatest();
      version.NormaliseLatest();
      r := Ok(DetailPage(DetailOf(p, version.latest.value)));
    }
  }

  /** What get(area) renders. */
  function AreaPage(db: seq<PluginDefn>, sizeText: string, area: string): Result<Page> {
    var form := AreaForm(db, sizeText, Some(area));
    if form.Ok? then Ok(ListPage(form.value)) else Raised(form.error)
  }

  /** What get_plugin renders. */
  function PluginPage(db: seq<PluginDefn>, repoId: string, pluginId: string): Result<Page> {
    var d := PluginDetail(db, repoId, pluginId);
    if d.Ok? then Ok(DetailPage(d.value)) else Raised(d.error)
  }

  // ---------------------------------------------------------------------
  // Dispatch

  datatype ManagerOp = DeletePlugin | InstallPlugin

  datatype Body =
    | ErrorPage(message: string)
    | Content(page: Page)
    | ManagerStatus(op: ManagerOp, repoId: string, pluginId: string, results: string)
    | OtherAction(text: string)

  datatype Response = Response(code: nat, body: Body)

  /** A CabernetException becomes a 404 with the given message; other
      exceptions escape the handler. */
  function Caught(r: Result<Page>, message: string): Result<Response> {
    match r
    case Ok(page) => Ok(Response(200, Content(page)))
    case Raised(e) => if e.CabernetException? then Ok(Response(404, ErrorPage(message))) else Raised(e)
  }

  /** GET /api/pluginsform with the query's area, plugin and repo. */
  function GetResponse(db: seq<PluginDefn>, sizeText: string,
                       area: Option<string>, plugin: Option<string>, repo: Option<string>): Result<Response>
  {
    if area.None? && plugin.None? && repo.None? then
      Ok(Response(404, ErrorPage("404 - Badly formed request")))
    else if Present(area) then
      Caught(AreaPage(db, sizeText, area.value), "404 - Badly formed area request")
    else if Present(plugin) && Present(repo) then
      Caught(PluginPage(db, repo.value, plugin.value), "404 - Badly formed plugin request")
    else
      Ok(Response(404, ErrorPage("404 - Badly formed plugin/repo request")))
  }

  /** query_data.get(key). */
  function Lookup(query: map<string, string>, key: string): Option<string> {
    if key in query then Some(query[key]) else None
  }

  /** get_plugins_form_html: a fresh form object per request. */
  method GetPluginsFormHtml(db: seq<PluginDefn>, sizeText: string, query: map<string, string>)
    returns (r: Result<Response>)
    ensures r == GetResponse(db, sizeText, Lookup(query, "area"), Lookup(query, "plugin"), Lookup(query, "repo"))
  {
    var form := new PluginsFormHtml(db, sizeText);
    var area := Lookup(query, "area");
    var plugin := Lookup(query, "plugin");
    var repo := Lookup(query, "repo");
    if area.None? && plugin.None? && repo.None? {
      r := Ok(Response(404, ErrorPage("404 - Badly formed request")));
    } else if Present(area) {
      var page := form.Get(area.value);
      r := Caught(page, "404 - Badly formed area request");
    } else if Present(plugin) && Present(repo) {
      var page := form.GetPlugin(repo.value, plugin.value);
      r := Caught(page, "404 - Badly formed plugin request");
    } else {
      r := Ok(Response(404, ErrorPage("404 - Badly formed plugin/repo request")));
    }
  }

  /** Every GET answers 200 or 404, except that a listing may let a
      KeyError escape; an unknown tab or plugin is a 404. */
  lemma GetOutcomes(db: seq<PluginDefn>, sizeText: string,
                    area: Option<string>, plugin: Option<string>, repo: Option<string>)
    ensures var r := GetResponse(db, sizeText, area, plugin, repo);
            (r.Ok? && r.value.code in {200, 404}) || (r == Raised(KeyError) && Present(area))
    ensures area.None? && plugin.None? && repo.None? ==>
              GetResponse(db, sizeText, area, plugin, repo) == Ok(Response(404, ErrorPage("404 - Badly formed request")))
    ensures Present(area) && area.value != "My_Plugins" && area.value != "Catalog" ==>
              GetResponse(db, sizeText, area, plugin, repo) == Ok(Response(404, ErrorPage("404 - Badly formed area request")))
    ensures !Present(area) && Present(plugin) && Present(repo) ==>
              (GetResponse(db, sizeText, area, plugin, repo) == Ok(Response(404, ErrorPage("404 - Badly formed plugin request")))
               <==> forall p :: p in db ==> !(p.repoId == repo.value && p.id == plugin.value))
  {
    if !Present(area) && Present(plugin) && Present(repo) {
      PluginDetailSpec(db, repo.value, plugin.value);
    }
    if Present(area) {
      AreaFormValidates(db, sizeText, area);
      var f := AreaForm(db, sizeText, area);
      if f.Raised? && !f.error.CabernetException? {
        assert f.error == KeyError;
      }
    }
  }

  /** A non-empty area decides the answer on its own: plugin and repo are
      then ignored. */
  lemma AreaTakesPrecedence(db: seq<PluginDefn>, sizeText: string, area: Option<string>,
                            plugin1: Option<string>, repo1: Option<string>,
                            plugin2: Option<string>, repo2: Option<string>)
    requires Present(area)
    ensures GetResponse(db, sizeText, area, plugin1, repo1) == GetResponse(db, sizeText, area, plugin2, repo2)
  {
  }

  /** Without a usable area, a plugin without a repo or a repo without a
      plugin is a 404, and so is an empty area given alone. */
  lemma HalfPluginRequest(db: seq<PluginDefn>, sizeText: string,
                          area: Option<string>, plugin: Option<string>, repo: Option<string>)
    requires !Present(area) && !(Present(plugin) && Present(repo))
    requires area.Some? || plugin.Some? || repo.Some?
    ensures GetResponse(db, sizeText, area, plugin, repo) ==
              Ok(Response(404, ErrorPage("404 - Badly formed plugin/repo request")))
  {
  }

  /** A form value is given and not an empty list. */
  predicate Given(v: Option<seq<string>>) {
    v.Some? && v.value != []
  }

  /** POST /api/pluginsform: only the first value of each field is used;
      managerResults is what the plugin manager's call returns. Every answer
      is a 200 or a 404; the one exception that escapes is the IndexError of
      an empty action string. */
  function PostResponse(action: Option<seq<string>>, pluginId: Option<seq<string>>, repoId: Option<seq<string>>,
                        managerResults: string): (r: Result<Response>)
    ensures r.Ok? ==> r.value.code == 200 || r.value.code == 404
    ensures r.Raised? ==> r.error == IndexError
  {
    if Given(action) && Given(pluginId) && Given(repoId) then
      var a := action.value[0];
      var p := pluginId.value[0];
      var r := repoId.value[0];
      if a == "deletePlugin" then Ok(Response(200, ManagerStatus(DeletePlugin, r, p, managerResults)))
      else if a == "installPlugin" then Ok(Response(200, ManagerStatus(InstallPlugin, r, p, managerResults)))
      else if a == "" then Raised(IndexError)
      else Ok(Response(200, OtherAction("doing something else" + [a[0]])))
    else
      Ok(Response(404, ErrorPage("404 - Badly formed request")))
  }

  /** POST answers 404 exactly when one of the three fields is missing or an
      empty list; the manager is called exactly for deletePlugin and
      installPlugin, with the first repo and plugin ids, and its results are
      answered with 200; any other action is answered with 200 and "doing
      something else" followed by its first character, and an empty action
      string raises IndexError. */
  lemma PostOutcomes(action: Option<seq<string>>, pluginId: Option<seq<string>>, repoId: Option<seq<string>>,
                     managerResults: string)
    ensures var r := PostResponse(action, pluginId, repoId, managerResults);
            (r.Ok? && r.value.code == 404) <==> !(Given(action) && Given(pluginId) && Given(repoId))
    ensures var r := PostResponse(action, pluginId, repoId, managerResults);
            r.Ok? && r.value.code == 404 ==> r.value.body == ErrorPage("404 - Badly formed request")
    ensures var r := PostResponse(action, pluginId, repoId, managerResults);
            r.Ok? && r.value.body.ManagerStatus? <==>
              Given(action) && Given(pluginId) && Given(repoId) &&
              (action.value[0] == "deletePlugin" || action.value[0] == "installPlugin")
    ensures var r := PostResponse(action, pluginId, repoId, managerResults);
            r.Ok? && r.value.body.ManagerStatus? ==>
              && r.value.body.repoId == repoId.value[0] && r.value.body.pluginId == pluginId.value[0]
              && (r.value.body.op == DeletePlugin <==> action.value[0] == "deletePlugin")
    ensures var r := PostResponse(action, pluginId, repoId, managerResults);
            r.Ok? && r.value.body.ManagerStatus? ==>
              r.value.code == 200 && r.value.body.results == managerResults
    ensures Given(action) && Given(pluginId) && Given(repoId) &&
            action.value[0] !in {"deletePlugin", "installPlugin", ""} ==>
              PostResponse(action, pluginId, repoId, managerResults) ==
              Ok(Response(200, OtherAction("doing something else" + [action.value[0][0]])))
    ensures PostResponse(action, pluginId, repoId, managerResults).Raised? <==>
              Given(action) && Given(pluginId) && Given(repoId) && action.value[0] == ""
  {
  }

  /** Only the first value of each field matters. */
  lemma PostUsesFirstValues(action: seq<string>, pluginId: seq<string>, repoId: seq<string>,
                            action': seq<string>, pluginId': seq<string>, repoId': seq<string>,
                            managerResults: string)
    requires action != [] && pluginId != [] && repoId != []
    requires action' != [] && pluginId' != [] && repoId' != []
    requires action[0] == action'[0] && pluginId[0] == pluginId'[0] && repoId[0] == repoId'[0]
    ensures PostResponse(Some(action), Some(pluginId), Some(repoId), managerResults) ==
            PostResponse(Some(action'), Some(pluginId'), Some(repoId'), managerResults)
  {
  }
}
