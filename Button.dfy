/** The shared button of src/components/UI/Button.jsx: one component that renders
    an external anchor, a router link or a plain button, depending on `to`. */
module Button {
  import opened Js

  /** The props the component reads; `None` is a prop that was not passed. `href`
      is not a prop of its own: it travels with the other props onto the element,
      after the element's own attributes, so on an anchor it wins over `to`. */
  datatype Props = Props(
    to: Option<string>, buttonType: Option<string>, variant: Option<string>,
    className: Option<string>, disabled: Option<bool>, target: Option<string>,
    rel: Option<string>, href: Option<string>)

  /** What is rendered. `passedHref` is an `href` spread onto a router link or a
      button, where it does not navigate. */
  datatype Element =
    | Anchor(href: string, className: string, target: string, rel: string, disabled: bool)
    | RouterLink(to: string, className: string, disabled: bool, passedHref: Option<string>)
    | ButtonElement(buttonType: string, className: string, disabled: bool, passedHref: Option<string>)

  const DefaultTarget: string := "_blank"
  const DefaultRel: string := "noopener noreferrer"

  /** `to.startsWith('http://') || to.startsWith('https://')`. */
  predicate IsExternal(to: string) {
    StartsWith(to, "http://") || StartsWith(to, "https://")
  }

  /** `` `btn ${variant}-btn ${className}` `` with `variant = 'primary'` and `className = ''`. */
  function BaseClass(variant: Option<string>, className: Option<string>): (r: string)
    ensures StartsWith(r, "btn ")
    ensures variant.None? && className.None? ==> r == "btn primary-btn "
  {
    "btn " + Default(variant, "primary") + "-btn " + Default(className, "")
  }

  function ClassName(e: Element): (r: string) {
    match e
    case Anchor(_, c, _, _, _) => c
    case RouterLink(_, c, _, _) => c
    case ButtonElement(_, c, _, _) => c
  }

  function Render(p: Props): (r: Element)
    ensures r.Anchor? <==> Truthy(p.to) && IsExternal(p.to.value)
    ensures r.RouterLink? <==> Truthy(p.to) && !IsExternal(p.to.value)
    ensures r.ButtonElement? <==> !Truthy(p.to)
    ensures ClassName(r) == BaseClass(p.variant, p.className)
    ensures r.Anchor? ==>
      r.href == Default(p.href, p.to.value) && r.target == OrElse(p.target, DefaultTarget) && r.rel == OrElse(p.rel, DefaultRel)
    ensures r.RouterLink? ==> r.to == p.to.value && r.passedHref == p.href
    ensures r.ButtonElement? ==> r.buttonType == Default(p.buttonType, "button") && r.passedHref == p.href
    ensures r.disabled == Default(p.disabled, false)
  {
    var cls := BaseClass(p.variant, p.className);
    var disabled := Default(p.disabled, false);
    if Truthy(p.to) then
      if IsExternal(p.to.value) then
        Anchor(Default(p.href, p.to.value), cls, OrElse(p.target, DefaultTarget), OrElse(p.rel, DefaultRel), disabled)
      else
        RouterLink(p.to.value, cls, disabled, p.href)
    else
      ButtonElement(Default(p.buttonType, "button"), cls, disabled, p.href)
  }

  function NoProps(): (r: Props) {
    Props(None, None, None, None, None, None, None, None)
  }

  /** A download button written with `href` and no `to` renders a button that navigates nowhere. */
  lemma HrefWithoutToIsAButton(url: string)
    ensures Render(NoProps().(href := Some(url), target := Some("_blank"))) ==
      ButtonElement("button", "btn primary-btn ", false, Some(url))
  {
  }

  /** An empty `to` is falsy: the button form is rendered, not a link. */
  lemma EmptyToIsAButton()
    ensures Render(NoProps().(to := Some(""))).ButtonElement?
  {
  }

  /** The `type` default applies only to a missing prop: an empty string is kept. */
  lemma TypeDefaultOnlyWhenMissing()
    ensures Render(NoProps()).buttonType == "button"
    ensures Render(NoProps().(buttonType := Some(""))).buttonType == ""
  {
  }

  /** An external link opens in a new tab with `noopener noreferrer` unless told
      otherwise; an empty `target` or `rel` also falls back. */
  lemma ExternalDefaults(url: string)
    requires StartsWith(url, "https://")
    ensures Render(NoProps().(to := Some(url))) == Anchor(url, "btn primary-btn ", DefaultTarget, DefaultRel, false)
    ensures Render(NoProps().(to := Some(url), target := Some(""), rel := Some(""))).target == DefaultTarget
  {
  }

  /** On an external anchor a passed `href` replaces `to`, since the spread comes last. */
  lemma SpreadHrefOverridesTo()
    ensures Render(NoProps().(to := Some("https://a"), href := Some("https://b"))).href == "https://b"
    ensures Render(NoProps().(to := Some("https://a"))).href == "https://a"
  {
  }

  /** Site paths are router links; the scheme test is case-sensitive, so `HTTP://`
      also goes to the router. */
  lemma PathsAreRouterLinks()
    ensures Render(NoProps().(to := Some("/contact"), variant := Some("secondary"))) ==
      RouterLink("/contact", "btn secondary-btn ", false, None)
    ensures Render(NoProps().(to := Some("HTTP://example.com"))).RouterLink?
  {
    assert "/contact"[..7][0] != "http://"[0];
    assert "/contact"[..8][0] != "https://"[0];
    assert "HTTP://example.com"[..7][0] != "http://"[0];
    assert "HTTP://example.com"[..8][0] != "https://"[0];
  }
}
