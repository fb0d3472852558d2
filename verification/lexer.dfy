/** The `include_bs3` template tag: one `<script>` or stylesheet `<link>` per
    bundled asset, then the Font Awesome stylesheet from its CDN. */
module AssetTags {
  import opened Py
  import opened Markup
  import Bs3

  const ScriptOpen := "<script type=\"text/javascript\" src=\""
  const ScriptClose := "\"></script>"
  const LinkOpen := "<link rel=\"stylesheet\" href=\""
  const LinkClose := "\" type=\"text/css\">"
  const FontAwesomeUrl := "//maxcdn.bootstrapcdn.com/font-awesome/4.4.0/css/font-awesome.min.css"

  /** The asset's file extension: the text after its last `.`, or the whole
      name when it has none. */
  function Extension(asset: string): string
  {
    LastPiece(asset, '.')
  }

  /** The extension of `<stem><dotExt>`, where `dotExt` is a dot followed
      by text without dots, is that text, whatever dots `stem` holds. */
  lemma ExtensionAfterLastDot(stem: string, dotExt: string)
    requires |dotExt| >= 1 && dotExt[0] == '.' && '.' !in dotExt[1..]
    ensures Extension(stem + dotExt) == dotExt[1..]
  {
    var s := stem + dotExt;
    assert s == stem + ['.'] + dotExt[1..];
    LastPieceIsLastOfSplit(s, '.');
    LastOfSplitAfterSeparator(stem, dotExt[1..], '.');
  }

  function AssetUrl(folder: string, asset: string): string
  {
    "/static/" + folder + "/" + asset
  }

  /** The markup included for one asset. */
  function AssetMarkup(folder: string, asset: string): string
  {
    var url := AssetUrl(folder, asset);
    if Extension(asset) == "js" then ScriptOpen + url + ScriptClose
    else LinkOpen + url + LinkClose
  }

  function FontAwesomeMarkup(): string
  {
    "<link href=\"" + FontAwesomeUrl + "\" rel=\"stylesheet\">"
  }

  /** The nodes included for `assets`, in order, when the configured static
      folder is `folder` (a non-string folder is only harmless when there is
      no asset to build a URL for). */
  function AssetNodes(folder: Value, assets: seq<string>): (nodes: seq<Node>)
    requires assets != [] ==> folder.Str?
    ensures |nodes| == |assets|
    ensures forall i :: 0 <= i < |assets| ==> nodes[i] == Html(AssetMarkup(folder.s, assets[i]))
  {
    seq(|assets|, i requires 0 <= i < |assets| => Html(AssetMarkup(folder.s, assets[i])))
  }

  /** What a reader of the included markup sees. */
  datatype Include = Script(url: string) | Stylesheet(url: string) | Other

  /** Reads back an asset's markup: which kind of tag it is and the URL it loads. */
  function ParseInclude(markup: string): Include
  {
    if ScriptOpen <= markup && |ScriptOpen| + |ScriptClose| <= |markup|
       && markup[|markup| - |ScriptClose|..] == ScriptClose
    then Script(markup[|ScriptOpen|..|markup| - |ScriptClose|])
    else if LinkOpen <= markup && |LinkOpen| + |LinkClose| <= |markup|
       && markup[|markup| - |LinkClose|..] == LinkClose
    then Stylesheet(markup[|LinkOpen|..|markup| - |LinkClose|])
    else Other
  }

  /** A script tag reads back as a script loading its URL. */
  lemma ScriptTagParses(url: string)
    ensures ParseInclude(ScriptOpen + url + ScriptClose) == Script(url)
  {
    var m := ScriptOpen + url + ScriptClose;
    assert m[..|ScriptOpen|] == ScriptOpen;
    assert m[|m| - |ScriptClose|..] == ScriptClose;
    assert m[|ScriptOpen|..|m| - |ScriptClose|] == url;
  }

  /** A stylesheet link reads back as a stylesheet loading its URL. */
  lemma LinkTagParses(url: string)
    ensures ParseInclude(LinkOpen + url + LinkClose) == Stylesheet(url)
  {
    var m := LinkOpen + url + LinkClose;
    assert m[..|LinkOpen|] == LinkOpen;
    assert !(ScriptOpen <= m) by { assert m[1] != ScriptOpen[1]; }
    assert m[|m| - |LinkClose|..] == LinkClose;
    assert m[|LinkOpen|..|m| - |LinkClose|] == url;
  }

  /** An asset becomes a `<script>` exactly when its extension is `js`, and
      either way the tag loads `/static/<folder>/<asset>`. */
  lemma AssetMarkupParses(folder: string, asset: string)
    ensures ParseInclude(AssetMarkup(folder, asset)) ==
            if Extension(asset) == "js" then Script(AssetUrl(folder, asset))
            else Stylesheet(AssetUrl(folder, asset))
  {
    if Extension(asset) == "js" {
      ScriptTagParses(AssetUrl(folder, asset));
    } else {
      LinkTagParses(AssetUrl(folder, asset));
    }
  }

  /** The closing Font Awesome link cannot be mistaken for an asset's tag. */
  lemma FontAwesomeIsNoAsset()
    ensures ParseInclude(FontAwesomeMarkup()) == Other
  {
    var m := FontAwesomeMarkup();
    assert m[1] != ScriptOpen[1];
    assert m[6] != LinkOpen[6];
  }

  /** The `include_bs3` lexer: `top` is the list of nodes of the template
      being parsed, at the point where the tag stands. */
  class Lexer {
    var top: seq<Node>
    /** `config.static_folder` of the extension. */
    const folder: Value
    /** The extension's asset list. */
    const assets: seq<string>

    constructor (folder: Value, assets: seq<string>, top: seq<Node>)
      ensures this.folder == folder && this.assets == assets && this.top == top
    {
      this.folder := folder;
      this.assets := assets;
      this.top := top;
    }

    /** Appends one node per asset, in order, then the Font Awesome link;
        the nodes already in `top` are left as they were. Building a URL
        from a folder that is not a string raises `TypeError`, which the
        precondition rules out. */
    method Process()
      requires assets != [] ==> folder.Str?
      modifies this`top
      ensures top == old(top) + AssetNodes(folder, assets) + [Html(FontAwesomeMarkup())]
    {
      var i := 0;
      while i < |assets|
        invariant 0 <= i <= |assets|
        invariant top == old(top) + AssetNodes(folder, assets[..i])
      {
        var asset := assets[i];
        var url := "/static/" + folder.s + "/" + asset;
        var markup: string;
        if LastPiece(asset, '.') == "js" {
          markup := ScriptOpen + url + ScriptClose;
        } else {
          markup := LinkOpen + url + LinkClose;
        }
        assert AssetNodes(folder, assets[..i + 1]) == AssetNodes(folder, assets[..i]) + [Html(markup)];
        top := top + [Html(markup)];
        i := i + 1;
      }
      assert assets[..i] == assets;
      var url := FontAwesomeUrl;
      var markup := "<link href=\"" + url + "\" rel=\"stylesheet\">";
      top := top + [Html(markup)];
    }
  }

  /** After the tag is processed, `top` holds exactly one node per asset plus
      one more: node `|before| + i` includes asset `i` as a script when its
      extension is `js` and as a stylesheet otherwise, from
      `/static/<folder>/<asset>`, and the last node is the Font Awesome link. */
  lemma ProcessedTop(before: seq<Node>, folder: string, assets: seq<string>)
    ensures var top := before + AssetNodes(Str(folder), assets) + [Html(FontAwesomeMarkup())];
      && |top| == |before| + |assets| + 1
      && top[..|before|] == before
      && (forall i :: 0 <= i < |assets| ==>
            top[|before| + i].Html? &&
            ParseInclude(top[|before| + i].markup) ==
              if Extension(assets[i]) == "js" then Script(AssetUrl(folder, assets[i]))
              else Stylesheet(AssetUrl(folder, assets[i])))
      && ParseInclude(top[|top| - 1].markup) == Other
  {
    var top := before + AssetNodes(Str(folder), assets) + [Html(FontAwesomeMarkup())];
    forall i | 0 <= i < |assets|
      ensures top[|before| + i].Html?
      ensures ParseInclude(top[|before| + i].markup) ==
                if Extension(assets[i]) == "js" then Script(AssetUrl(folder, assets[i]))
                else Stylesheet(AssetUrl(folder, assets[i]))
    {
      assert top[|before| + i] == Html(AssetMarkup(folder, assets[i]));
      AssetMarkupParses(folder, assets[i]);
    }
    FontAwesomeIsNoAsset();
  }

  /** An asset whose name ends in `.js` has the extension `js`. */
  lemma ScriptExtension(asset: string)
    requires |asset| >= 3 && asset[|asset| - 3..] == ".js"
    ensures Extension(asset) == "js"
  {
    assert asset == asset[..|asset| - 3] + ".js";
    assert ".js"[1..] == "js";
    ExtensionAfterLastDot(asset[..|asset| - 3], ".js");
  }

  /** An asset whose name ends in `.css` has the extension `css`. */
  lemma StylesheetExtension(asset: string)
    requires |asset| >= 4 && asset[|asset| - 4..] == ".css"
    ensures Extension(asset) == "css"
  {
    assert asset == asset[..|asset| - 4] + ".css";
    assert ".css"[1..] == "css";
    ExtensionAfterLastDot(asset[..|asset| - 4], ".css");
  }

  /** `["a.js", "b.css"]` gives a script, a stylesheet and the Font Awesome link. */
  lemma TwoAssetsExample(folder: string)
    ensures var top := AssetNodes(Str(folder), ["a.js", "b.css"]) + [Html(FontAwesomeMarkup())];
      && |top| == 3
      && ParseInclude(top[0].markup) == Script(AssetUrl(folder, "a.js"))
      && ParseInclude(top[1].markup) == Stylesheet(AssetUrl(folder, "b.css"))
      && ParseInclude(top[2].markup) == Other
  {
    assert Extension("a.js") == "js" by {
      assert "a.js"[1..] == ".js";
      ScriptExtension("a.js");
    }
    assert Extension("b.css") == "css" by {
      assert "b.css"[1..] == ".css";
      StylesheetExtension("b.css");
    }
    var nodes := AssetNodes(Str(folder), ["a.js", "b.css"]);
    ProcessedTop([], folder, ["a.js", "b.css"]);
    assert [] + nodes + [Html(FontAwesomeMarkup())] == nodes + [Html(FontAwesomeMarkup())];
  }

  /** The extensions of the extension's own assets, in order. */
  lemma BundledAssetExtensions()
    ensures |Bs3.Assets| == 5
    ensures Extension(Bs3.Assets[0]) == "js" && Extension(Bs3.Assets[1]) == "css"
    ensures Extension(Bs3.Assets[2]) == "js"
    ensures Extension(Bs3.Assets[3]) == "js" && Extension(Bs3.Assets[4]) == "css"
  {
    var a := Bs3.Assets;
    assert Extension(a[0]) == "js" by {
      assert a[0][13..] == ".js";
      ScriptExtension(a[0]);
    }
    assert Extension(a[1]) == "css" by {
      assert a[1][13..] == ".css";
      StylesheetExtension(a[1]);
    }
    assert Extension(a[2]) == "js" by {
      assert a[2][10..] == ".js";
      ScriptExtension(a[2]);
    }
    assert Extension(a[3]) == "js" by {
      assert a[3][28..] == ".js";
      ScriptExtension(a[3]);
    }
    assert Extension(a[4]) == "css" by {
      assert a[4][28..] == ".css";
      StylesheetExtension(a[4]);
    }
  }

  /** `include_bs3` loads the Bootstrap script, the Bootstrap stylesheet,
      Moment, the date/time-picker script and the date/time-picker
      stylesheet, in that order, then Font Awesome. */
  lemma BundledAssetsIncluded(folder: string)
    ensures var top := AssetNodes(Str(folder), Bs3.Assets) + [Html(FontAwesomeMarkup())];
      && |top| == 6
      && ParseInclude(top[0].markup) == Script(AssetUrl(folder, Bs3.Assets[0]))
      && ParseInclude(top[1].markup) == Stylesheet(AssetUrl(folder, Bs3.Assets[1]))
      && ParseInclude(top[2].markup) == Script(AssetUrl(folder, Bs3.Assets[2]))
      && ParseInclude(top[3].markup) == Script(AssetUrl(folder, Bs3.Assets[3]))
      && ParseInclude(top[4].markup) == Stylesheet(AssetUrl(folder, Bs3.Assets[4]))
      && ParseInclude(top[5].markup) == Other
  {
    BundledAssetExtensions();
    var nodes := AssetNodes(Str(folder), Bs3.Assets);
    ProcessedTop([], folder, Bs3.Assets);
    assert [] + nodes + [Html(FontAwesomeMarkup())] == nodes + [Html(FontAwesomeMarkup())];
  }
}
