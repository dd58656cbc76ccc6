/** The cache-creation page: a cache name plus either a chosen template or a
    raw JSON/XML configuration, a Create button that validates both and sends
    one of two creation requests, and the alert that shows the answer. */
module CreateCachePage {
  import opened Js

  /** The page's alert: the last answer, and whether it is shown. */
  datatype Alert = Alert(message: string, display: bool, success: bool)

  /** The two creation calls the page can make. */
  datatype Request =
    | ByConfigName(name: string, template: string)
    | WithConfiguration(name: string, config: string)

  /** The creation service's answer. */
  datatype Response = Response(success: bool, message: string)

  datatype AlertVariant = SuccessAlert | DangerAlert

  /** What the alert panel renders. */
  datatype AlertView = AlertView(variant: AlertVariant, title: string)

  const CreatedTitle: string := "Cache created correctly"

  const HiddenAlert: Alert := Alert("", false, false)

  /** The alert panel: nothing unless the alert is displayed; then the
      success or danger variant, titled with the message, or with the
      standard text when the message is empty. */
  function AlertPanel(a: Alert): (v: Option<AlertView>)
    ensures v.Some? <==> a.display
    ensures v.Some? ==> (v.value.variant == SuccessAlert <==> a.success)
    ensures v.Some? && a.message == [] ==> v.value.title == CreatedTitle
    ensures v.Some? && a.message != [] ==> v.value.title == a.message
    ensures v.Some? ==> v.value.title != []
  {
    if a.display then
      Some(AlertView(if a.success then SuccessAlert else DangerAlert,
                     if a.message == "" then CreatedTitle else a.message))
    else None
  }

  /** A raw configuration is accepted when the untrimmed text is non-empty
      and its trimmed text parses as JSON or as XML. */
  predicate ConfigAccepted(isJson: string -> bool, isXml: string -> bool, text: string)
  {
    |text| != 0 && (isJson(Trim(text)) || isXml(Trim(text)))
  }

  /** A whitespace-only text is accepted only when a parser accepts the
      empty string: the length test looks at the untrimmed text. */
  lemma BlankConfigDependsOnParsers(isJson: string -> bool, isXml: string -> bool, text: string)
    requires |text| != 0 && Blank(text)
    ensures ConfigAccepted(isJson, isXml, text) <==> isJson("") || isXml("")
  {
    TrimEmptyIffBlank(text);
  }

  /** The page component. `isJson` and `isXml` stand for `JSON.parse`
      succeeding and the XML parser reporting no `parsererror`. */
  class CreateCacheForm {
    var cacheName: string
    var validName: bool
    var config: string
    var expandedSelect: bool
    var selectedConfig: Option<string>
    var selectedConfigDisabled: bool
    var configExpanded: bool
    var validConfig: bool
    var cacheAlert: Alert
    const isJson: string -> bool
    const isXml: string -> bool

    /** The template select is disabled exactly while the raw-configuration
        panel is open, and no template is chosen while it is disabled. */
    ghost predicate Valid()
      reads this
    {
      && selectedConfigDisabled == configExpanded
      && (selectedConfigDisabled ==> selectedConfig == None)
    }

    constructor (isJson: string -> bool, isXml: string -> bool)
      ensures Valid()
      ensures cacheName == "" && config == "" && selectedConfig == None
      ensures validName && validConfig
      ensures !expandedSelect && !configExpanded && !selectedConfigDisabled
      ensures cacheAlert == HiddenAlert
      ensures this.isJson == isJson && this.isXml == isXml
    {
      cacheName := "";
      validName := true;
      config := "";
      expandedSelect := false;
      selectedConfig := None;
      selectedConfigDisabled := false;
      configExpanded := false;
      validConfig := true;
      cacheAlert := HiddenAlert;
      this.isJson := isJson;
      this.isXml := isXml;
    }

    method OnNameChange(name: string)
      modifies this`cacheName
      ensures cacheName == name
    {
      cacheName := name;
    }

    method OnConfigChange(text: string)
      modifies this`config
      ensures config == text
    {
      config := text;
    }

    /** Opening or closing the template dropdown. */
    method OnToggleSelect(isExpanded: bool)
      modifies this`expandedSelect
      ensures expandedSelect == isExpanded
    {
      expandedSelect := isExpanded;
    }

    /** Opening or closing the raw-configuration panel disables or enables
        the template select and always drops the chosen template. */
    method OnToggleConfigPanel()
      modifies this`configExpanded, this`selectedConfigDisabled, this`selectedConfig
      ensures Valid()
      ensures configExpanded == !old(configExpanded)
      ensures selectedConfigDisabled == configExpanded
      ensures selectedConfig == None
    {
      var expanded := !configExpanded;
      configExpanded := expanded;
      selectedConfigDisabled := expanded;
      selectedConfig := None;
    }

    method ClearSelection()
      requires Valid()
      modifies this`selectedConfig, this`expandedSelect
      ensures Valid()
      ensures selectedConfig == None && !expandedSelect
    {
      selectedConfig := None;
      expandedSelect := false;
    }

    /** Choosing in the template dropdown, which is only possible while the
        select is enabled: the placeholder clears the choice, anything else
        becomes it; the dropdown closes either way. */
    method OnSelect(selection: string, isPlaceholder: bool)
      requires Valid() && !selectedConfigDisabled
      modifies this`selectedConfig, this`expandedSelect
      ensures Valid()
      ensures !expandedSelect
      ensures selectedConfig == if isPlaceholder then None else Some(selection)
    {
      if isPlaceholder {
        ClearSelection();
      } else {
        selectedConfig := Some(selection);
        expandedSelect := false;
      }
    }

    /** Checks the raw configuration: empty text fails at once; otherwise
        the trimmed text is tried as JSON and then as XML. */
    method ValidateConfig() returns (ok: bool)
      ensures ok == ConfigAccepted(isJson, isXml, config)
    {
      var trimmedConf := Trim(config);
      if |config| == 0 {
        return false;
      }
      var json := false;
      var xml := false;
      if isJson(trimmedConf) {
        json := true;
      }
      if isXml(trimmedConf) {
        xml := true;
      }
      ok := json || xml;
    }

    /** The Create button, as written: the validity flags are set from the
        current input, but the decision to send reads the flags as they were
        before the click. A request carries the trimmed name, and either the
        chosen template or the untrimmed raw text. */
    method CreateCache() returns (sent: Option<Request>)
      requires Valid()
      modifies this`validName, this`validConfig
      ensures Valid()
      ensures configExpanded && sent.Some? ==> sent.value == WithConfiguration(Trim(cacheName), config)
      ensures validName == (Trim(cacheName) != [])
      ensures validConfig == (selectedConfig.Some? || ConfigAccepted(isJson, isXml, config))
      ensures sent.Some? <==> old(validName) && old(validConfig)
      ensures sent.Some? && selectedConfig.Some? ==>
                sent.value == ByConfigName(Trim(cacheName), selectedConfig.value)
      ensures sent.Some? && selectedConfig.None? ==>
                sent.value == WithConfiguration(Trim(cacheName), config)
    {
      var name := Trim(cacheName);
      var wasValidName, wasValidConfig := validName, validConfig;
      validName := |name| != 0;
      var configOk := ValidateConfig();
      validConfig := !(selectedConfig == None && !configOk);
      if !wasValidName || !wasValidConfig {
        return None;
      }
      if selectedConfig != None {
        sent := Some(ByConfigName(name, selectedConfig.value));
      } else {
        sent := Some(WithConfiguration(name, config));
      }
    }

    /** The Create button with the gate reading the flags just computed. */
    method CreateCacheIntended() returns (sent: Option<Request>)
      requires Valid()
      modifies this`validName, this`validConfig
      ensures Valid()
      ensures configExpanded && sent.Some? ==> sent.value == WithConfiguration(Trim(cacheName), config)
      ensures validName == (Trim(cacheName) != [])
      ensures validConfig == (selectedConfig.Some? || ConfigAccepted(isJson, isXml, config))
      ensures sent.Some? <==> validName && validConfig
      ensures sent.Some? ==> sent.value.name != [] && sent.value.name == Trim(sent.value.name)
      ensures sent.Some? && selectedConfig.Some? ==>
                sent.value == ByConfigName(Trim(cacheName), selectedConfig.value)
      ensures sent.Some? && selectedConfig.None? ==>
                sent.value == WithConfiguration(Trim(cacheName), config)
    {
      var name := Trim(cacheName);
      validName := |name| != 0;
      var configOk := ValidateConfig();
      validConfig := !(selectedConfig == None && !configOk);
      if !validName || !validConfig {
        return None;
      }
      TrimIdempotent(cacheName);
      if selectedConfig != None {
        sent := Some(ByConfigName(name, selectedConfig.value));
      } else {
        sent := Some(WithConfiguration(name, config));
      }
    }

    /** The creation service answered: the alert is replaced and shown. */
    method OnResponse(response: Response)
      modifies this`cacheAlert
      ensures cacheAlert == Alert(response.message, true, response.success)
      ensures AlertPanel(cacheAlert).Some?
    {
      cacheAlert := Alert(response.message, true, response.success);
    }

    /** Closing the alert. */
    method HideCreation()
      modifies this`cacheAlert
      ensures cacheAlert == HiddenAlert
      ensures AlertPanel(cacheAlert) == None
    {
      cacheAlert := HiddenAlert;
    }
  }

  /** The first click on a fresh page sends a request even though the name
      and the configuration are both empty, because the gate still sees the
      initial `true` flags; the same click marks both fields invalid. */
  method FirstClickSendsEmpty(isJson: string -> bool, isXml: string -> bool)
    returns (sent: Option<Request>, validName: bool, validConfig: bool)
    ensures sent == Some(WithConfiguration("", ""))
    ensures !validName && !validConfig
  {
    var page := new CreateCacheForm(isJson, isXml);
    sent := page.CreateCache();
    validName, validConfig := page.validName, page.validConfig;
  }

  /** After a click that marked a field invalid, fixing the input is not
      enough: the next click still sees the stale flag and sends nothing;
      only the click after it sends. */
  method ClicksAfterRejection(page: CreateCacheForm)
    returns (second: Option<Request>, third: Option<Request>)
    requires page.Valid()
    requires !page.validName || !page.validConfig
    requires Trim(page.cacheName) != [] && page.selectedConfig.Some?
    modifies page`validName, page`validConfig
    ensures second == None
    ensures third == Some(ByConfigName(Trim(page.cacheName), page.selectedConfig.value))
  {
    second := page.CreateCache();
    third := page.CreateCache();
  }

  /** From a fresh page: the first click is sent; after the name and a
      template are filled in, the second click sends nothing and the third
      sends by template. */
  method FixedInputNeedsTwoClicks(isJson: string -> bool, isXml: string -> bool,
                                  name: string, template: string)
    returns (first: Option<Request>, second: Option<Request>, third: Option<Request>)
    requires Trim(name) != []
    ensures first.Some? && second == None
    ensures third == Some(ByConfigName(Trim(name), template))
  {
    var page := new CreateCacheForm(isJson, isXml);
    first := page.CreateCache();
    page.OnNameChange(name);
    page.OnSelect(template, false);
    second, third := ClicksAfterRejection(page);
  }

  /** With the intended gate, the first click on a fresh page sends nothing. */
  method FirstClickIntended(isJson: string -> bool, isXml: string -> bool)
    returns (sent: Option<Request>)
    ensures sent == None
  {
    var page := new CreateCacheForm(isJson, isXml);
    sent := page.CreateCacheIntended();
  }
}
