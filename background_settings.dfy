/**
  The background chooser: a preset gradient, a custom gradient or an
  uploaded image becomes the page's background and is remembered in
  `localStorage` (`app_background` for a gradient, `app_background_image`
  for an image, never both), and the remembered choice is applied again when
  the site loads and whenever the dialog opens.
 */
module BackgroundTheme {
  import opened Wrappers
  import opened Text
  import opened Browser

  const BackgroundKey := "app_background"
  const ImageKey := "app_background_image"

  /** The gradient the custom field starts with (also the first preset). */
  const DefaultGradient := "linear-gradient(135deg, #667eea 0%, #764ba2 100%)"

  datatype Preset = Preset(name: string, value: string)

  const Presets: seq<Preset> := [
    Preset("Тёмный градиент", DefaultGradient),
    Preset("Синий океан", "linear-gradient(135deg, #2E3192 0%, #1BFFFF 100%)"),
    Preset("Закат", "linear-gradient(135deg, #FA8BFF 0%, #2BD2FF 90%, #2BFF88 100%)"),
    Preset("Лес", "linear-gradient(135deg, #134E5E 0%, #71B280 100%)"),
    Preset("Огненный", "linear-gradient(135deg, #FF512F 0%, #F09819 100%)"),
    Preset("Ночное небо", "linear-gradient(135deg, #000428 0%, #004e92 100%)")
  ]

  /** The Tailwind classes that would paint over the background. */
  const Covering: set<string> := {"bg-background", "bg-white", "bg-gray-100"}

  const UrlMarker := "url("

  /** The CSS background an image URL is shown with. */
  function ImageBackground(url: string): (b: string)
    ensures Contains(b, UrlMarker)
  {
    var b := UrlMarker + url + ") center/cover fixed";
    assert b[0..|UrlMarker|] == UrlMarker;
    assert OccursAt(b, UrlMarker, 0);
    b
  }

  /**
    The background the site restores from storage: a non-empty gradient
    wins; otherwise a non-empty image; otherwise none.
   */
  function SavedBackground(items: map<string, string>): (r: Option<string>)
    ensures BackgroundKey in items && items[BackgroundKey] != "" ==> r == Some(items[BackgroundKey])
    ensures (BackgroundKey !in items || items[BackgroundKey] == "") && ImageKey in items && items[ImageKey] != "" ==>
      r == Some(ImageBackground(items[ImageKey]))
    ensures r.None? <==> (BackgroundKey !in items || items[BackgroundKey] == "") && (ImageKey !in items || items[ImageKey] == "")
  {
    if BackgroundKey in items && items[BackgroundKey] != "" then Some(items[BackgroundKey])
    else if ImageKey in items && items[ImageKey] != "" then Some(ImageBackground(items[ImageKey]))
    else None
  }

  /** A non-empty gradient, once remembered, is what the site restores. */
  lemma GradientRestores(items: map<string, string>, gradient: string)
    requires gradient != ""
    ensures SavedBackground(items[BackgroundKey := gradient] - {ImageKey}) == Some(gradient)
  {
  }

  /** A non-empty image, once remembered, is what the site restores, scaled to cover. */
  lemma ImageRestores(items: map<string, string>, url: string)
    requires url != ""
    ensures SavedBackground(items[ImageKey := url] - {BackgroundKey}) == Some(ImageBackground(url))
  {
  }

  /** Every preset is non-empty, so remembering it restores it. */
  lemma PresetsRestore(items: map<string, string>, i: nat)
    requires i < |Presets|
    ensures SavedBackground(items[BackgroundKey := Presets[i].value] - {ImageKey}) == Some(Presets[i].value)
  {
    assert |Presets[i].value| > 0;
    GradientRestores(items, Presets[i].value);
  }

  /** At most one of the two choices is remembered. */
  predicate OneChoice(items: map<string, string>) {
    !(BackgroundKey in items && ImageKey in items)
  }

  /**
    `after` is `before` with `background` applied: the page fills the window,
    the covering classes leave `<body>` and `#root` (when there is one), the
    background is set and fixed, and an image (a value containing `url(`) is
    also scaled to cover and centred; a gradient leaves size and position as
    they were.
   */
  ghost predicate Applied(before: Styles, after: Styles, background: string) {
    && after.htmlHeight == "100%" && after.bodyHeight == "100%" && after.bodyMargin == "0"
    && after.bodyClasses == before.bodyClasses - Covering
    && (before.rootClasses.None? ==> after.rootClasses.None?)
    && (before.rootClasses.Some? ==> after.rootClasses == Some(before.rootClasses.value - Covering))
    && after.background == background && after.backgroundAttachment == "fixed"
    && (Contains(background, UrlMarker) ==> after.backgroundSize == "cover" && after.backgroundPosition == "center")
    && (!Contains(background, UrlMarker) ==>
          after.backgroundSize == before.backgroundSize && after.backgroundPosition == before.backgroundPosition)
  }

  /**
    `after` is `before` reset: the four inline background styles are cleared,
    `<body>` gets its theme class back, and nothing else changes.
   */
  ghost predicate WasReset(before: Styles, after: Styles) {
    && after.background == "" && after.backgroundSize == "" && after.backgroundPosition == "" && after.backgroundAttachment == ""
    && after.bodyClasses == before.bodyClasses + {"bg-background"}
    && after.rootClasses == before.rootClasses
    && after.htmlHeight == before.htmlHeight && after.bodyHeight == before.bodyHeight && after.bodyMargin == before.bodyMargin
  }

  /** `applyBackground(background)`. */
  method ApplyBackground(page: Page, background: string)
    modifies page
    ensures Applied(old(page.Snapshot()), page.Snapshot(), background)
  {
    page.htmlHeight := "100%";
    page.bodyHeight := "100%";
    page.bodyMargin := "0";
    page.bodyClasses := page.bodyClasses - Covering;
    if page.rootClasses.Some? {
      page.rootClasses := Some(page.rootClasses.value - Covering);
    }
    if Contains(background, UrlMarker) {
      page.background := background;
      page.backgroundSize := "cover";
      page.backgroundPosition := "center";
      page.backgroundAttachment := "fixed";
    } else {
      page.background := background;
      page.backgroundAttachment := "fixed";
    }
  }

  /** `resetBackground()`: the inline background goes and `<body>` gets its theme class back. */
  method ResetBackground(page: Page)
    modifies page
    ensures WasReset(old(page.Snapshot()), page.Snapshot())
  {
    page.background, page.backgroundSize, page.backgroundPosition, page.backgroundAttachment := "", "", "", "";
    page.bodyClasses := page.bodyClasses + {"bg-background"};
  }

  class BackgroundSettings {
    const storage: LocalStorage
    const page: Page
    var customGradient: string
    /** The name of the chosen file, or None. */
    var selectedFile: Option<string>

    constructor (storage: LocalStorage, page: Page)
      ensures this.storage == storage && this.page == page
      ensures customGradient == DefaultGradient && selectedFile.None?
    {
      this.storage := storage;
      this.page := page;
      customGradient := DefaultGradient;
      selectedFile := None;
    }

    /** The effect run on mount and each time the dialog opens: apply what storage remembers, if anything. */
    method Restore()
      modifies page
      ensures SavedBackground(storage.items).None? ==> page.Snapshot() == old(page.Snapshot())
      ensures SavedBackground(storage.items).Some? ==>
        Applied(old(page.Snapshot()), page.Snapshot(), SavedBackground(storage.items).value)
      ensures customGradient == old(customGradient) && selectedFile == old(selectedFile)
    {
      var saved := SavedBackground(storage.items);
      if saved.Some? {
        ApplyBackground(page, saved.value);
      }
    }

    /** `applyPresetBackground`: remember the preset as the gradient, forget any image, apply it. */
    method ApplyPreset(i: nat)
      requires i < |Presets|
      requires storage as object != page
      modifies storage, page
      ensures storage.items == old(storage.items)[BackgroundKey := Presets[i].value] - {ImageKey}
      ensures SavedBackground(storage.items) == Some(Presets[i].value) && OneChoice(storage.items)
      ensures Applied(old(page.Snapshot()), page.Snapshot(), Presets[i].value)
      ensures customGradient == old(customGradient) && selectedFile == old(selectedFile)
    {
      storage.SetItem(BackgroundKey, Presets[i].value);
      storage.RemoveItem(ImageKey);
      PresetsRestore(old(storage.items), i);
      ApplyBackground(page, Presets[i].value);
    }

    method EditCustomGradient(value: string)
      modifies this
      ensures customGradient == value && selectedFile == old(selectedFile)
    {
      customGradient := value;
    }

    /**
      `applyCustomGradient`: a field that is blank after trimming changes
      nothing; otherwise the untrimmed text is remembered and applied.
     */
    method ApplyCustomGradient()
      requires storage as object != page
      modifies storage, page
      ensures Strip(customGradient) == "" ==>
        storage.items == old(storage.items) && page.Snapshot() == old(page.Snapshot())
      ensures Strip(customGradient) != "" ==>
        && storage.items == old(storage.items)[BackgroundKey := customGradient] - {ImageKey}
        && SavedBackground(storage.items) == Some(customGradient) && OneChoice(storage.items)
        && Applied(old(page.Snapshot()), page.Snapshot(), customGradient)
      ensures customGradient == old(customGradient) && selectedFile == old(selectedFile)
    {
      var gradient := customGradient;
      if Strip(gradient) != "" {
        assert |gradient| >= |Strip(gradient)| > 0;
        GradientRestores(storage.items, gradient);
        storage.SetItem(BackgroundKey, gradient);
        storage.RemoveItem(ImageKey);
        ApplyBackground(page, gradient);
      }
    }

    /** The file input's change event: a chosen file is noted and handed to the reader. */
    method SelectFile(fileName: Option<string>)
      modifies this
      ensures fileName.Some? ==> selectedFile == fileName
      ensures fileName.None? ==> selectedFile == old(selectedFile)
      ensures customGradient == old(customGradient)
    {
      if fileName.Some? {
        selectedFile := fileName;
      }
    }

    /**
      The reader's `onload` with the file as a data URL: a non-empty URL is
      remembered as the image, the gradient is forgotten, and the image is
      applied scaled to cover.
     */
    method FileLoaded(imageUrl: string)
      requires storage as object != page
      modifies storage, page
      ensures imageUrl == "" ==> storage.items == old(storage.items) && page.Snapshot() == old(page.Snapshot())
      ensures imageUrl != "" ==>
        && storage.items == old(storage.items)[ImageKey := imageUrl] - {BackgroundKey}
        && SavedBackground(storage.items) == Some(ImageBackground(imageUrl)) && OneChoice(storage.items)
        && Applied(old(page.Snapshot()), page.Snapshot(), ImageBackground(imageUrl))
        && page.backgroundSize == "cover" && page.backgroundPosition == "center"
      ensures customGradient == old(customGradient) && selectedFile == old(selectedFile)
    {
      if imageUrl != "" {
        ImageRestores(storage.items, imageUrl);
        storage.SetItem(ImageKey, imageUrl);
        storage.RemoveItem(BackgroundKey);
        ApplyBackground(page, ImageBackground(imageUrl));
      }
    }

    /** `resetAllBackgrounds`: forget both choices, reset the page, clear the chosen file. */
    method ResetAll()
      requires storage as object != page
      modifies this, storage, page
      ensures storage.items == old(storage.items) - {BackgroundKey, ImageKey}
      ensures SavedBackground(storage.items).None? && OneChoice(storage.items)
      ensures WasReset(old(page.Snapshot()), page.Snapshot())
      ensures selectedFile.None? && customGradient == old(customGradient)
    {
      storage.RemoveItem(BackgroundKey);
      storage.RemoveItem(ImageKey);
      ResetBackground(page);
      selectedFile := None;
    }
  }
}
