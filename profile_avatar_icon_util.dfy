/**
 * Default profile avatar icons: the fixed table of 27 built-in icons, the
 * `chrome://theme/IDR_PROFILE_AVATAR_<n>` URLs that name them and the parser
 * that recognises such a URL, and the size decisions taken before an avatar
 * image is redrawn for a menu, the WebUI or the title bar.
 */
module ProfileAvatarIcon {
  import Decimal

  const AvatarIconWidth: int := 38
  const AvatarIconHeight: int := 38
  const AvatarIconPadding: int := 2

  const DefaultUrlPrefix: string := "chrome://theme/IDR_PROFILE_AVATAR_"
  const GaiaPictureFileName: string := "Google Profile Picture.png"
  const HighResAvatarFolderName: string := "Avatars"

  /** Every generic avatar's file name begins with this. */
  const GenericAvatarPrefix: string := "avatar_generic"

  /** Marks the one avatar that has no high resolution copy on the server. */
  const NoHighResAvatar: string := "NothingToDownload"

  const DefaultAvatarIconsCount: nat := 27
  const GenericAvatarIconsCount: nat := 8

  /** The grey silhouette used as a placeholder. */
  const PlaceholderAvatarIcon: nat := 26

  /** The resource bundle id `IDR_PROFILE_AVATAR_<n>`; its numeric value comes from generated code. */
  datatype ResourceId = IdrProfileAvatar(n: nat)

  datatype IconResourceInfo = IconResourceInfo(resourceId: ResourceId, filename: string)

  /** The function-static table of default avatar icons. */
  const DefaultAvatarIconResources: seq<IconResourceInfo> := [
    IconResourceInfo(IdrProfileAvatar(0), GenericAvatarPrefix + ".png"),
    IconResourceInfo(IdrProfileAvatar(1), GenericAvatarPrefix + "_aqua.png"),
    IconResourceInfo(IdrProfileAvatar(2), GenericAvatarPrefix + "_blue.png"),
    IconResourceInfo(IdrProfileAvatar(3), GenericAvatarPrefix + "_green.png"),
    IconResourceInfo(IdrProfileAvatar(4), GenericAvatarPrefix + "_orange.png"),
    IconResourceInfo(IdrProfileAvatar(5), GenericAvatarPrefix + "_purple.png"),
    IconResourceInfo(IdrProfileAvatar(6), GenericAvatarPrefix + "_red.png"),
    IconResourceInfo(IdrProfileAvatar(7), GenericAvatarPrefix + "_yellow.png"),
    IconResourceInfo(IdrProfileAvatar(8), "avatar_secret_agent.png"),
    IconResourceInfo(IdrProfileAvatar(9), "avatar_superhero.png"),
    IconResourceInfo(IdrProfileAvatar(10), "avatar_volley_ball.png"),
    IconResourceInfo(IdrProfileAvatar(11), "avatar_businessman.png"),
    IconResourceInfo(IdrProfileAvatar(12), "avatar_ninja.png"),
    IconResourceInfo(IdrProfileAvatar(13), "avatar_alien.png"),
    IconResourceInfo(IdrProfileAvatar(14), "avatar_smiley.png"),
    IconResourceInfo(IdrProfileAvatar(15), "avatar_flower.png"),
    IconResourceInfo(IdrProfileAvatar(16), "avatar_pizza.png"),
    IconResourceInfo(IdrProfileAvatar(17), "avatar_soccer.png"),
    IconResourceInfo(IdrProfileAvatar(18), "avatar_burger.png"),
    IconResourceInfo(IdrProfileAvatar(19), "avatar_cat.png"),
    IconResourceInfo(IdrProfileAvatar(20), "avatar_cupcake.png"),
    IconResourceInfo(IdrProfileAvatar(21), "avatar_dog.png"),
    IconResourceInfo(IdrProfileAvatar(22), "avatar_horse.png"),
    IconResourceInfo(IdrProfileAvatar(23), "avatar_margarita.png"),
    IconResourceInfo(IdrProfileAvatar(24), "avatar_note.png"),
    IconResourceInfo(IdrProfileAvatar(25), "avatar_sun_cloud.png"),
    IconResourceInfo(IdrProfileAvatar(26), NoHighResAvatar)
  ]

  predicate StartsWith(s: string, prefix: string) {
    |prefix| <= |s| && s[..|prefix|] == prefix
  }

  // ---------------------------------------------------------------------------
  // Table accessors

  function GetDefaultAvatarIconCount(): (n: nat)
    ensures n == |DefaultAvatarIconResources|
  {
    DefaultAvatarIconsCount
  }

  function GetGenericAvatarIconCount(): (n: nat)
    ensures n == 8 && n < GetDefaultAvatarIconCount()
  {
    GenericAvatarIconsCount
  }

  /** The generic icons are exactly the first `GetGenericAvatarIconCount()` entries of the table. */
  lemma GenericIconsComeFirst(i: nat)
    requires i < GetDefaultAvatarIconCount()
    ensures StartsWith(DefaultAvatarIconResources[i].filename, GenericAvatarPrefix)
        <==> i < GetGenericAvatarIconCount()
  {
    if i < GenericAvatarIconsCount {
      var t := DefaultAvatarIconResources;
      var suffixes := [".png", "_aqua.png", "_blue.png", "_green.png",
                       "_orange.png", "_purple.png", "_red.png", "_yellow.png"];
      assert t[i].filename == GenericAvatarPrefix + suffixes[i];
      PrefixStartsWith(GenericAvatarPrefix, suffixes[i]);
    } else {
      NotGeneric(i);
    }
  }

  /** Every later entry differs from the generic prefix at its eighth character. */
  lemma NotGeneric(i: nat)
    requires GenericAvatarIconsCount <= i < DefaultAvatarIconsCount
    ensures !StartsWith(DefaultAvatarIconResources[i].filename, GenericAvatarPrefix)
  {
    var t := DefaultAvatarIconResources;
    match i {
      case 8 => DiffersAt(t[8].filename, GenericAvatarPrefix, 7);
      case 9 => DiffersAt(t[9].filename, GenericAvatarPrefix, 7);
      case 10 => DiffersAt(t[10].filename, GenericAvatarPrefix, 7);
      case 11 => DiffersAt(t[11].filename, GenericAvatarPrefix, 7);
      case 12 => DiffersAt(t[12].filename, GenericAvatarPrefix, 7);
      case 13 => DiffersAt(t[13].filename, GenericAvatarPrefix, 7);
      case 14 => DiffersAt(t[14].filename, GenericAvatarPrefix, 7);
      case 15 => DiffersAt(t[15].filename, GenericAvatarPrefix, 7);
      case 16 => DiffersAt(t[16].filename, GenericAvatarPrefix, 7);
      case 17 => DiffersAt(t[17].filename, GenericAvatarPrefix, 7);
      case 18 => DiffersAt(t[18].filename, GenericAvatarPrefix, 7);
      case 19 => DiffersAt(t[19].filename, GenericAvatarPrefix, 7);
      case 20 => DiffersAt(t[20].filename, GenericAvatarPrefix, 7);
      case 21 => DiffersAt(t[21].filename, GenericAvatarPrefix, 7);
      case 22 => DiffersAt(t[22].filename, GenericAvatarPrefix, 7);
      case 23 => DiffersAt(t[23].filename, GenericAvatarPrefix, 7);
      case 24 => DiffersAt(t[24].filename, GenericAvatarPrefix, 7);
      case 25 => DiffersAt(t[25].filename, GenericAvatarPrefix, 7);
      case 26 => DiffersAt(t[26].filename, GenericAvatarPrefix, 7);
    }
  }

  lemma DiffersAt(s: string, prefix: string, k: nat)
    requires k < |prefix| && k < |s| && s[k] != prefix[k]
    ensures !StartsWith(s, prefix)
  {
    if |prefix| <= |s| {
      assert s[..|prefix|][k] != prefix[k];
    }
  }

  lemma PrefixStartsWith(p: string, x: string)
    ensures StartsWith(p + x, p)
  {
    assert (p + x)[..|p|] == p;
  }

  function IsDefaultAvatarIconIndex(index: nat): (b: bool)
    ensures b <==> index < |DefaultAvatarIconResources|
  {
    index < DefaultAvatarIconsCount
  }

  function GetPlaceholderAvatarIndex(): (i: nat)
    ensures IsDefaultAvatarIconIndex(i) && i == |DefaultAvatarIconResources| - 1
  {
    PlaceholderAvatarIcon
  }

  /** Indexing the table past its end is undefined behaviour in the source. */
  function GetDefaultAvatarIconResourceInfo(index: nat): IconResourceInfo
    requires index < DefaultAvatarIconsCount
  {
    DefaultAvatarIconResources[index]
  }

  /** Every table entry carries the resource named after its own index. */
  lemma ResourceIdMatchesIndex(index: nat)
    requires index < DefaultAvatarIconsCount
    ensures GetDefaultAvatarIconResourceInfo(index).resourceId == IdrProfileAvatar(index)
  {
    if index < 9 {
      LowResourceIds(index);
    } else if index < 18 {
      MiddleResourceIds(index);
    } else {
      HighResourceIds(index);
    }
  }

  lemma LowResourceIds(i: nat)
    requires 0 <= i < 9
    ensures DefaultAvatarIconResources[i].resourceId.n == i
  {
    var t := DefaultAvatarIconResources;
    match i {
      case 0 => assert t[0].resourceId.n == 0;
      case 1 => assert t[1].resourceId.n == 1;
      case 2 => assert t[2].resourceId.n == 2;
      case 3 => assert t[3].resourceId.n == 3;
      case 4 => assert t[4].resourceId.n == 4;
      case 5 => assert t[5].resourceId.n == 5;
      case 6 => assert t[6].resourceId.n == 6;
      case 7 => assert t[7].resourceId.n == 7;
      case 8 => assert t[8].resourceId.n == 8;
    }
  }


  lemma MiddleResourceIds(i: nat)
    requires 9 <= i < 18
    ensures DefaultAvatarIconResources[i].resourceId.n == i
  {
    var t := DefaultAvatarIconResources;
    match i {
      case 9 => assert t[9].resourceId.n == 9;
      case 10 => assert t[10].resourceId.n == 10;
      case 11 => assert t[11].resourceId.n == 11;
      case 12 => assert t[12].resourceId.n == 12;
      case 13 => assert t[13].resourceId.n == 13;
      case 14 => assert t[14].resourceId.n == 14;
      case 15 => assert t[15].resourceId.n == 15;
      case 16 => assert t[16].resourceId.n == 16;
      case 17 => assert t[17].resourceId.n == 17;
    }
  }


  lemma HighResourceIds(i: nat)
    requires 18 <= i < 27
    ensures DefaultAvatarIconResources[i].resourceId.n == i
  {
    var t := DefaultAvatarIconResources;
    match i {
      case 18 => assert t[18].resourceId.n == 18;
      case 19 => assert t[19].resourceId.n == 19;
      case 20 => assert t[20].resourceId.n == 20;
      case 21 => assert t[21].resourceId.n == 21;
      case 22 => assert t[22].resourceId.n == 22;
      case 23 => assert t[23].resourceId.n == 23;
      case 24 => assert t[24].resourceId.n == 24;
      case 25 => assert t[25].resourceId.n == 25;
      case 26 => assert t[26].resourceId.n == 26;
    }
  }


  function GetDefaultAvatarIconResourceIDAtIndex(index: nat): (id: ResourceId)
    requires IsDefaultAvatarIconIndex(index)
    ensures id == IdrProfileAvatar(index)
  {
    ResourceIdMatchesIndex(index);
    GetDefaultAvatarIconResourceInfo(index).resourceId
  }

  /** The file name of an entry; it names a generic icon exactly for the first entries. */
  function GetDefaultAvatarIconFileNameAtIndex(index: nat): (name: string)
    requires index < DefaultAvatarIconsCount
    ensures StartsWith(name, GenericAvatarPrefix) <==> index < GetGenericAvatarIconCount()
  {
    GenericIconsComeFirst(index);
    GetDefaultAvatarIconResourceInfo(index).filename
  }

  /** The marker file name is the one the placeholder entry carries, and no other entry does. */
  function GetNoHighResAvatarFileName(): (name: string)
    ensures name == GetDefaultAvatarIconFileNameAtIndex(GetPlaceholderAvatarIndex())
    ensures forall i :: 0 <= i < GetPlaceholderAvatarIndex() ==>
      GetDefaultAvatarIconFileNameAtIndex(i) != name
  {
    NoHighResAvatar
  }

  function GetPlaceholderAvatarIconResourceID(): (id: ResourceId)
    ensures id == GetDefaultAvatarIconResourceIDAtIndex(GetPlaceholderAvatarIndex())
  {
    IdrProfileAvatar(26)
  }

  // ---------------------------------------------------------------------------
  // Default avatar URLs

  function GetDefaultAvatarIconUrl(index: nat): (url: string)
    requires IsDefaultAvatarIconIndex(index)
    ensures StartsWith(url, DefaultUrlPrefix)
  {
    DefaultUrlPrefix + Decimal.NatToString(index)
  }

  /** Whether a URL names a default avatar, and the `icon_index` out-parameter afterwards. */
  datatype UrlMatch = UrlMatch(isDefault: bool, iconIndex: nat)

  /**
   * The URL must begin with the prefix and the rest must parse as an `int` in
   * [0, 27). On any rejection the caller's `iconIndex` is left as it was.
   */
  function IsDefaultAvatarIconUrl(url: string, iconIndex: nat): (r: UrlMatch)
    ensures !r.isDefault ==> r.iconIndex == iconIndex
    ensures !StartsWith(url, DefaultUrlPrefix) ==> !r.isDefault
    ensures r.isDefault <==>
      StartsWith(url, DefaultUrlPrefix) &&
      var n := Decimal.StringToInt(url[|DefaultUrlPrefix|..]);
      n.Some? && 0 <= n.value < DefaultAvatarIconsCount
    ensures r.isDefault ==>
      IsDefaultAvatarIconIndex(r.iconIndex) &&
      Decimal.StringToInt(url[|DefaultUrlPrefix|..]).value == r.iconIndex
  {
    if !StartsWith(url, DefaultUrlPrefix) then
      UrlMatch(false, iconIndex)
    else
      var n := Decimal.StringToInt(url[|DefaultUrlPrefix|..]);
      if n.Some? then
        if n.value < 0 || n.value >= DefaultAvatarIconsCount as int then
          UrlMatch(false, iconIndex)
        else
          UrlMatch(true, n.value)
      else
        UrlMatch(false, iconIndex)
  }

  /** Every default avatar URL is recognised and yields its own index back. */
  lemma UrlRoundTrip(index: nat, iconIndex: nat)
    requires IsDefaultAvatarIconIndex(index)
    ensures IsDefaultAvatarIconUrl(GetDefaultAvatarIconUrl(index), iconIndex) == UrlMatch(true, index)
  {
    var url := GetDefaultAvatarIconUrl(index);
    assert url[|DefaultUrlPrefix|..] == Decimal.NatToString(index);
    Decimal.StringToIntOfNatToString(index);
  }

  /** The prefix followed by the decimal form of an index past the table is rejected. */
  lemma RejectsIndexPastTable(n: nat, iconIndex: nat)
    requires DefaultAvatarIconsCount <= n <= Decimal.IntMax
    ensures IsDefaultAvatarIconUrl(DefaultUrlPrefix + Decimal.NatToString(n), iconIndex)
         == UrlMatch(false, iconIndex)
  {
    var url := DefaultUrlPrefix + Decimal.NatToString(n);
    assert url[|DefaultUrlPrefix|..] == Decimal.NatToString(n);
    Decimal.StringToIntOfNatToString(n);
  }

  /** The prefix followed by a negative number is rejected. */
  lemma RejectsNegativeIndex(n: nat, iconIndex: nat)
    requires 1 <= n
    ensures IsDefaultAvatarIconUrl(DefaultUrlPrefix + "-" + Decimal.NatToString(n), iconIndex)
         == UrlMatch(false, iconIndex)
  {
    var url := DefaultUrlPrefix + "-" + Decimal.NatToString(n);
    var suffix := url[|DefaultUrlPrefix|..];
    assert suffix == "-" + Decimal.NatToString(n);
    assert !Decimal.AllDigits(suffix) by { assert !Decimal.IsDigit(suffix[0]); }
    assert suffix[1..] == Decimal.NatToString(n);
    Decimal.DigitsValueOfNatToString(n);
  }

  // ---------------------------------------------------------------------------
  // Size decisions before redrawing an avatar

  datatype AvatarPosition = PositionCenter | PositionBottomCenter
  datatype AvatarBorder = BorderNone | BorderNormal | BorderEtched

  /**
   * An image: either a bitmap as loaded, or one drawn by an avatar image source
   * onto a canvas of the given size, with the avatar scaled to `avatarWidth`.
   */
  datatype Image =
    | Bitmap(width: int, height: int)
    | Composed(source: Image, canvasWidth: int, canvasHeight: int, avatarWidth: int,
               position: AvatarPosition, border: AvatarBorder)
  {
    function Height(): int {
      match this
      case Bitmap(_, h) => h
      case Composed(_, _, h, _, _, _) => h
    }
  }

  function Min(a: int, b: int): int {
    if a <= b then a else b
  }

  /**
   * A square icon that already fits is returned as is; anything else is drawn
   * centred on a `width` x `height` canvas. Either way the result is no taller
   * than `height`.
   */
  function GetSizedAvatarIcon(image: Image, isRectangle: bool, width: int, height: int): (r: Image)
    ensures r.Height() <= height
    ensures !isRectangle && image.Height() <= height ==> r == image
    ensures isRectangle || image.Height() > height ==>
      r == Composed(image, width, height, Min(width, height), PositionCenter, BorderNone)
  {
    if !isRectangle && image.Height() <= height then
      image
    else
      Composed(image, width, height, Min(width, height), PositionCenter, BorderNone)
  }

  function GetAvatarIconForMenu(image: Image, isRectangle: bool): (r: Image)
    ensures r.Height() <= AvatarIconHeight
  {
    GetSizedAvatarIcon(image, isRectangle, AvatarIconWidth, AvatarIconHeight)
  }

  function GetAvatarIconForWebUI(image: Image, isRectangle: bool): (r: Image)
    ensures r.Height() <= AvatarIconHeight
  {
    GetSizedAvatarIcon(image, isRectangle, AvatarIconWidth, AvatarIconHeight)
  }

  /**
   * A non-GAIA image no taller than the icon height is returned as is. Otherwise
   * the avatar is drawn at the bottom centre of a `dstWidth` x `dstHeight`
   * canvas, at most 38 wide and no larger than either canvas side, with an
   * etched border exactly for GAIA images.
   */
  function GetAvatarIconForTitleBar(image: Image, isGaiaImage: bool, dstWidth: int, dstHeight: int): (r: Image)
    ensures !isGaiaImage && image.Height() <= AvatarIconHeight ==> r == image
    ensures isGaiaImage || image.Height() > AvatarIconHeight ==>
      r.Composed? && r.source == image &&
      r.canvasWidth == dstWidth && r.canvasHeight == dstHeight &&
      r.position == PositionBottomCenter &&
      (r.border == BorderEtched <==> isGaiaImage) && (r.border == BorderNone <==> !isGaiaImage) &&
      r.avatarWidth <= AvatarIconWidth && r.avatarWidth <= dstWidth && r.avatarWidth <= dstHeight &&
      (r.avatarWidth == AvatarIconWidth || r.avatarWidth == dstWidth || r.avatarWidth == dstHeight)
  {
    if !isGaiaImage && image.Height() <= AvatarIconHeight then
      image
    else
      var size := Min(Min(AvatarIconWidth, AvatarIconHeight), Min(dstWidth, dstHeight));
      Composed(image, dstWidth, dstHeight, size, PositionBottomCenter,
               if isGaiaImage then BorderEtched else BorderNone)
  }
}
