/**
 * The `lang` table: one label record per supported language. Every record
 * has the same labels, so the record type lists them as fields; `Lookup`
 * gives the script's dynamic `translations[key]` access, where a key that
 * is not a label reads as `undefined` (here `None`).
 */
module Translations {
  import opened Wrappers

  /** The labels of one language. */
  datatype Labels = Labels(
    greeting: string, projects: string, contact: string, about: string, loading: string,
    navTitle: string, pageTitle: string,
    formName: string, formEmail: string, formMessage: string, formSubmit: string, footerText: string,
    email: string, website: string, twitter: string, viewProject: string, stars: string,
    noProjects: string, noEmail: string, errorLoading: string, contactMe: string)

  const Spanish := Labels(
    "¡Hola!", "Proyectos", "Contacto", "Acerca de mí", "Cargando...",
    "Portafolio", "Portafolio",
    "Nombre", "Correo electrónico", "Mensaje", "Enviar mensaje",
    "© 2025 Portafolio. Hecho con ❤️ usando la API de GitHub.",
    "Correo", "Sitio web", "Twitter", "Ver proyecto", "estrellas",
    "No se encontraron proyectos públicos.", "No hay correo público disponible.",
    "Error al cargar los datos de GitHub.", "Contáctame")

  const English := Labels(
    "Hello!", "Projects", "Contact", "About Me", "Loading...",
    "Portfolio", "Portfolio",
    "Name", "Email", "Message", "Send Message",
    "© 2025 Portfolio. Built with ❤️ using GitHub API.",
    "Email", "Website", "Twitter", "View project", "stars",
    "No public projects found.", "No public email available.",
    "Error loading GitHub data.", "Contact me")

  /** The language codes `lang` has a record for. */
  predicate Supported(code: string) {
    code == "es" || code == "en"
  }

  /** `lang`: language code to label record. */
  const Lang: map<string, Labels> := map["es" := Spanish, "en" := English]

  /**
   * The property names every object inherits from `Object.prototype`
   * (section 20.1.3 of ECMA-262 and the legacy accessors of its Annex B).
   * `lang[code]` finds one of these for such a code, and it is no label record.
   */
  const InheritedNames: set<string> := {
    "constructor", "hasOwnProperty", "isPrototypeOf", "propertyIsEnumerable", "toLocaleString",
    "toString", "valueOf", "__proto__", "__defineGetter__", "__defineSetter__",
    "__lookupGetter__", "__lookupSetter__"
  }

  /**
   * The labels as painted from an inherited member: every label reads
   * `undefined`. Assigned to `textContent` that is the empty text; in a
   * template literal, in `innerHTML` or joined to a string it is the text
   * `undefined`.
   */
  const Unlabelled := Labels(
    "", "", "", "", "",
    "", "",
    "", "", "", "", "undefined",
    "undefined", "undefined", "undefined", "undefined", "undefined",
    "", "undefined", "", "undefined")

  /**
   * `lang[code]` as a property read: the own record for a supported code,
   * the inherited member for an inherited name, and `undefined` (no entry)
   * for anything else.
   */
  const Table: map<string, Labels> := map code | code in InheritedNames + {"es", "en"} ::
    if code in Lang then Lang[code] else Unlabelled

  /** The label names, as the script's property keys. */
  const LabelKeys: set<string> := {
    "greeting", "projects", "contact", "about", "loading", "navTitle", "pageTitle",
    "formName", "formEmail", "formMessage", "formSubmit", "footerText",
    "email", "website", "twitter", "viewProject", "stars",
    "noProjects", "noEmail", "errorLoading", "contactMe"
  }

  /** `translations[key]` for the record's own labels. */
  function Lookup(t: Labels, key: string): (r: Option<string>)
    ensures r.Some? <==> key in LabelKeys
  {
    match key
    case "greeting" => Some(t.greeting)
    case "projects" => Some(t.projects)
    case "contact" => Some(t.contact)
    case "about" => Some(t.about)
    case "loading" => Some(t.loading)
    case "navTitle" => Some(t.navTitle)
    case "pageTitle" => Some(t.pageTitle)
    case "formName" => Some(t.formName)
    case "formEmail" => Some(t.formEmail)
    case "formMessage" => Some(t.formMessage)
    case "formSubmit" => Some(t.formSubmit)
    case "footerText" => Some(t.footerText)
    case "email" => Some(t.email)
    case "website" => Some(t.website)
    case "twitter" => Some(t.twitter)
    case "viewProject" => Some(t.viewProject)
    case "stars" => Some(t.stars)
    case "noProjects" => Some(t.noProjects)
    case "noEmail" => Some(t.noEmail)
    case "errorLoading" => Some(t.errorLoading)
    case "contactMe" => Some(t.contactMe)
    case _ => None
  }

  // ---------------------------------------------------------------- properties

  /** The table has a record for exactly the two supported codes. */
  lemma LangCodes(code: string)
    ensures code in Lang <==> Supported(code)
    ensures code == "es" ==> Lang[code] == Spanish
    ensures code == "en" ==> Lang[code] == English
  {
  }

  /**
   * A code reads a record from the table exactly when it is supported or an
   * inherited name; an inherited name paints every label as `undefined`.
   */
  lemma TableCodes(code: string)
    ensures code in Table <==> Supported(code) || code in InheritedNames
    ensures Supported(code) ==> Table[code] == Lang[code]
    ensures code in InheritedNames ==> Table[code] == Unlabelled
  {
    LangCodes(code);
  }

  /** Every label has non-empty text in both languages. */
  lemma LabelsNonEmpty(key: string)
    requires key in LabelKeys
    ensures Lookup(Spanish, key).value != "" && Lookup(English, key).value != ""
  {
  }

  /** The greeting and the section titles really differ between the two languages. */
  lemma HeadingsAreTranslated()
    ensures Spanish.greeting != English.greeting
    ensures Spanish.projects != English.projects
    ensures Spanish.contact != English.contact
    ensures Spanish.about != English.about
    ensures Spanish.navTitle != English.navTitle && Spanish.pageTitle != English.pageTitle
  {
  }

  /** Neither record has an `aboutText` label, although the error path reads one. */
  lemma NoAboutTextLabel(t: Labels)
    ensures Lookup(t, "aboutText").None?
  {
  }
}
