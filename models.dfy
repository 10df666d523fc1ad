/** models.TemplateData: what every page template is executed with. */
module Models {
  import Content
  import Messages
  import ModelConfig

  /** What the page templates are given as their Data. */
  datatype PageData = NoData | ContentPage(content: Content.ContentTemplateData) | StatusPage(msg: Messages.AlertMsg)

  /** The page data, the owner's profile and whether the contact form is
      shown. */
  datatype TemplateData = TemplateData(data: PageData, profile: ModelConfig.ProfileConfig, renderContact: bool)
}
