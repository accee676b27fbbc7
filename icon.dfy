/** The item icon resolver of the browser popup (`IconController`): it picks the icon
    service's base URLs once, and on every change of the bound cipher assigns the glyph,
    the favicon URL and the fallback favicon URL shown next to the item. */
module Icon {
  import opened Wrappers
  import opened JsStrings

  /** A JavaScript string-typed field, which may also hold `undefined` or `null`.
      `Undefined` and `Null` are kept apart so that "set to null" differs from
      "never assigned". */
  datatype NullableString = Undefined | Null | Str(s: string)

  /** JavaScript truthiness of a string-typed value: present and non-empty. */
  predicate Truthy(v: NullableString)
  {
    v.Str? && v.s != ""
  }

  /** `CipherType`; `OtherType` is any value the switch has no case for. */
  datatype CipherType = Login | SecureNote | Card | Identity | OtherType

  /** The bound item: its type and, for a login, `login.uri`. */
  datatype Cipher = Cipher(kind: CipherType, loginUri: NullableString)

  const DEFAULT_ICONS_URL := "https://icons.bitwarden.com"
  const FALLBACK_ICONS_URL := "https://icons.karahanbuhan"
  const ICONS_PATH := "/icons"

  const GLOBE := "fa-globe"
  const STICKY_NOTE := "fa-sticky-note-o"
  const CREDIT_CARD := "fa-credit-card"
  const ID_CARD := "fa-id-card-o"
  const ANDROID := "fa-android"
  const APPLE := "fa-apple"

  const ANDROID_APP_SCHEME := "androidapp://"
  const IOS_APP_SCHEME := "iosapp://"
  const SCHEME_DELIMITER := "://"
  const DOMAIN_SEPARATOR := "."
  const HTTP := "http"
  const HTTP_PREFIX := "http://"

  /** What the controller was configured with at construction. */
  datatype Settings = Settings(imageEnabled: bool, iconsUrl: string, fallbackUrl: string)

  /** The three output fields `icon`, `image` and `fallbackImage`. */
  datatype View = View(icon: NullableString, image: NullableString, fallbackImage: NullableString)

  /** The favicon URL for `host` at the icon service `base`. */
  function IconUrl(base: string, host: string): string
  {
    base + "/" + host + "/icon.png"
  }

  /** How a login URI is treated: an app link, a website whose favicon is fetched from
      `target` (the URI, possibly with `http://` put in front), or neither. */
  datatype UriKind = AndroidApp | IosApp | Website(target: string) | NotWebsite

  /** Reference classification of a (non-empty) login URI, stated with prefix and
      substring predicates rather than `indexOf`. */
  function Classify(uri: string, imageEnabled: bool): (k: UriKind)
    ensures k == AndroidApp <==> ANDROID_APP_SCHEME <= uri
    ensures k == IosApp <==> !(ANDROID_APP_SCHEME <= uri) && IOS_APP_SCHEME <= uri
    ensures k.Website? <==>
      imageEnabled && !(ANDROID_APP_SCHEME <= uri) && !(IOS_APP_SCHEME <= uri) &&
      Contains(uri, DOMAIN_SEPARATOR) && (!Contains(uri, SCHEME_DELIMITER) || HTTP <= uri)
    ensures k.Website? ==> k.target == if Contains(uri, SCHEME_DELIMITER) then uri else HTTP_PREFIX + uri
    ensures k.Website? ==> HTTP <= k.target && Contains(k.target, DOMAIN_SEPARATOR)
  {
    if ANDROID_APP_SCHEME <= uri then AndroidApp
    else if IOS_APP_SCHEME <= uri then IosApp
    else if imageEnabled && !Contains(uri, SCHEME_DELIMITER) && Contains(uri, DOMAIN_SEPARATOR) then
      ContainsAfterPrefix(HTTP_PREFIX, uri, DOMAIN_SEPARATOR);
      assert HTTP <= HTTP_PREFIX + uri;
      Website(HTTP_PREFIX + uri)
    else if imageEnabled && HTTP <= uri && Contains(uri, DOMAIN_SEPARATOR) then Website(uri)
    else NotWebsite
  }

  /** `setLoginIcon` on the view `v`, for the login URI `uri`. */
  function LoginView(st: Settings, uri: NullableString, v: View, parseHost: string -> Option<string>): View
  {
    if !Truthy(uri) then v.(image := Null)
    else
      match Classify(uri.s, st.imageEnabled)
      case AndroidApp => v.(icon := Str(ANDROID), image := Null)
      case IosApp => v.(icon := Str(APPLE), image := Null)
      case NotWebsite => v
      case Website(target) =>
        match parseHost(target)
        case None => v
        case Some(host) =>
          v.(image := Str(IconUrl(st.iconsUrl, host)), fallbackImage := Str(IconUrl(st.fallbackUrl, host)))
  }

  /** The host name whose favicon the item shows, if it is a login whose URI is a website
      and whose URL parses. */
  function WebsiteHost(st: Settings, c: Cipher, parseHost: string -> Option<string>): Option<string>
  {
    if c.kind == Login && Truthy(c.loginUri) then
      match Classify(c.loginUri.s, st.imageEnabled)
      case Website(target) => parseHost(target)
      case _ => None
    else None
  }

  /** The view after `$onChanges` for the item `c`, starting from the view `v`. */
  function Resolved(st: Settings, c: Cipher, v: View, parseHost: string -> Option<string>): (r: View)
    // the category decides the glyph; an unknown category changes nothing
    ensures c.kind == SecureNote ==> r.icon == Str(STICKY_NOTE)
    ensures c.kind == Card ==> r.icon == Str(CREDIT_CARD)
    ensures c.kind == Identity ==> r.icon == Str(ID_CARD)
    ensures c.kind == OtherType ==> r == v
    // only a login's images are ever touched
    ensures c.kind != Login ==> r.image == v.image && r.fallbackImage == v.fallbackImage
    // a login shows the globe unless its URI is an app link
    ensures c.kind == Login ==>
      r.icon == if !Truthy(c.loginUri) then Str(GLOBE)
                else if ANDROID_APP_SCHEME <= c.loginUri.s then Str(ANDROID)
                else if IOS_APP_SCHEME <= c.loginUri.s then Str(APPLE)
                else Str(GLOBE)
    // a missing or empty URI clears the image and leaves the fallback alone
    ensures c.kind == Login && !Truthy(c.loginUri) ==> r.image == Null && r.fallbackImage == v.fallbackImage
    // app links clear the image, whatever imageEnabled is, and leave the fallback alone
    ensures c.kind == Login && Truthy(c.loginUri) &&
            (ANDROID_APP_SCHEME <= c.loginUri.s || IOS_APP_SCHEME <= c.loginUri.s) ==>
      r.image == Null && r.fallbackImage == v.fallbackImage
    // both image URLs are built from the same parsed host ...
    ensures WebsiteHost(st, c, parseHost).Some? ==>
      r.image == Str(IconUrl(st.iconsUrl, WebsiteHost(st, c, parseHost).value)) &&
      r.fallbackImage == Str(IconUrl(st.fallbackUrl, WebsiteHost(st, c, parseHost).value))
    // ... and without one no image is set to a URL
    ensures WebsiteHost(st, c, parseHost).None? ==>
      r.fallbackImage == v.fallbackImage && (r.image == v.image || r.image == Null)
    // a login URI that is not an app link, and gives no parsed website host, changes no image field
    ensures c.kind == Login && Truthy(c.loginUri) &&
            !(ANDROID_APP_SCHEME <= c.loginUri.s) && !(IOS_APP_SCHEME <= c.loginUri.s) &&
            WebsiteHost(st, c, parseHost).None? ==>
      r == v.(icon := Str(GLOBE))
    // with images disabled neither image field ever gets a URL
    ensures !st.imageEnabled ==> r.fallbackImage == v.fallbackImage && (r.image == v.image || r.image == Null)
  {
    match c.kind
    case Login => LoginView(st, c.loginUri, v.(icon := Str(GLOBE)), parseHost)
    case SecureNote => v.(icon := Str(STICKY_NOTE))
    case Card => v.(icon := Str(CREDIT_CARD))
    case Identity => v.(icon := Str(ID_CARD))
    case OtherType => v
  }

  /** Recomputing the view for an unchanged item gives the same view again. */
  lemma ResolvedIdempotent(st: Settings, c: Cipher, v: View, parseHost: string -> Option<string>)
    ensures Resolved(st, c, Resolved(st, c, v, parseHost), parseHost) == Resolved(st, c, v, parseHost)
  {
  }

  /** An icon controller: fixed settings and the three view fields it recomputes. */
  class IconController {
    var cipher: Option<Cipher>
    var icon: NullableString
    var image: NullableString
    var fallbackImage: NullableString
    var imageEnabled: bool

    var iconsUrl: string
    var fallbackUrl: string

    function Config(): Settings
      reads this
    {
      Settings(imageEnabled, iconsUrl, fallbackUrl)
    }

    function Displayed(): View
      reads this
    {
      View(icon, image, fallbackImage)
    }

    /** `faviconEnabled` is the state service's setting; `envIconsUrl` and `envBaseUrl`
        are the environment service's `iconsUrl` and `baseUrl`. */
    constructor (faviconEnabled: bool, envIconsUrl: NullableString, envBaseUrl: NullableString)
      ensures imageEnabled == faviconEnabled
      ensures Truthy(envIconsUrl) ==> iconsUrl == envIconsUrl.s
      ensures !Truthy(envIconsUrl) && Truthy(envBaseUrl) ==> iconsUrl == envBaseUrl.s + ICONS_PATH
      ensures !Truthy(envIconsUrl) && !Truthy(envBaseUrl) ==> iconsUrl == DEFAULT_ICONS_URL
      ensures fallbackUrl == FALLBACK_ICONS_URL
      ensures cipher == None && Displayed() == View(Undefined, Undefined, Undefined)
    {
      cipher := None;
      icon, image, fallbackImage := Undefined, Undefined, Undefined;
      imageEnabled := faviconEnabled;
      if Truthy(envIconsUrl) {
        iconsUrl := envIconsUrl.s;
      } else if Truthy(envBaseUrl) {
        iconsUrl := envBaseUrl.s + ICONS_PATH;
      } else {
        iconsUrl := DEFAULT_ICONS_URL;
      }
      // the field is still unset here, so the source's guard always takes this branch
      fallbackUrl := FALLBACK_ICONS_URL;
    }

    /** The binding `cipher` becomes `c`, then `$onChanges` runs; `parseHost` stands for
        `new URL(...).hostname`, `None` when the URL constructor throws. */
    method OnChanges(c: Cipher, parseHost: string -> Option<string>)
      modifies this`cipher, this`icon, this`image, this`fallbackImage
      ensures cipher == Some(c)
      ensures Displayed() == Resolved(Config(), c, old(Displayed()), parseHost)
    {
      cipher := Some(c);
      match c.kind {
        case Login =>
          icon := Str(GLOBE);
          SetLoginIcon(parseHost);
        case SecureNote =>
          icon := Str(STICKY_NOTE);
        case Card =>
          icon := Str(CREDIT_CARD);
        case Identity =>
          icon := Str(ID_CARD);
        case OtherType =>
      }
    }

    /** `setLoginIcon`: classifies the login URI with `indexOf` and assigns the fields. */
    method SetLoginIcon(parseHost: string -> Option<string>)
      requires cipher.Some?
      modifies this`icon, this`image, this`fallbackImage
      ensures Displayed() == LoginView(Config(), cipher.value.loginUri, old(Displayed()), parseHost)
    {
      var uri := cipher.value.loginUri;
      if Truthy(uri) {
        var hostnameUri := uri.s;
        var isWebsite := false;

        if IndexOf(hostnameUri, ANDROID_APP_SCHEME) == 0 {
          icon := Str(ANDROID);
          image := Null;
        } else if IndexOf(hostnameUri, IOS_APP_SCHEME) == 0 {
          icon := Str(APPLE);
          image := Null;
        } else if imageEnabled && IndexOf(hostnameUri, SCHEME_DELIMITER) == -1 && IndexOf(hostnameUri, DOMAIN_SEPARATOR) > -1 {
          hostnameUri := HTTP_PREFIX + hostnameUri;
          isWebsite := true;
        } else if imageEnabled {
          isWebsite := IndexOf(hostnameUri, HTTP) == 0 && IndexOf(hostnameUri, DOMAIN_SEPARATOR) > -1;
        }

        if imageEnabled && isWebsite {
          var url := parseHost(hostnameUri);
          if url.Some? {
            image := Str(IconUrl(iconsUrl, url.value));
            fallbackImage := Str(IconUrl(fallbackUrl, url.value));
          }
        }
      } else {
        image := Null;
      }
    }
  }
}
