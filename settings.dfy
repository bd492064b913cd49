/** The part of the plugin's persisted settings (`plugin.database.setting`) that the
    template controller reads and writes in place. */
module Settings {
  import opened Enums

  class Setting {
    var templatePlugin: TemplatePlugin
    var dailyTemplateFilename: string
    var weeklyTemplateFilename: string
    var monthlyTemplateFilename: string
    var quarterlyTemplateFilename: string
    var yearlyTemplateFilename: string

    constructor (templatePlugin: TemplatePlugin, daily: string, weekly: string,
                 monthly: string, quarterly: string, yearly: string)
      ensures this.templatePlugin == templatePlugin
      ensures FilenameOf(Daily) == daily && FilenameOf(Weekly) == weekly
      ensures FilenameOf(Monthly) == monthly && FilenameOf(Quarterly) == quarterly
      ensures FilenameOf(Yearly) == yearly
    {
      this.templatePlugin := templatePlugin;
      dailyTemplateFilename := daily;
      weeklyTemplateFilename := weekly;
      monthlyTemplateFilename := monthly;
      quarterlyTemplateFilename := quarterly;
      yearlyTemplateFilename := yearly;
    }

    /** The template filename stored for `noteType`: the five-slot table. An empty
        string means that no template is set. */
    function FilenameOf(noteType: NoteType): string
      reads this
    {
      match noteType
      case Daily => dailyTemplateFilename
      case Weekly => weeklyTemplateFilename
      case Monthly => monthlyTemplateFilename
      case Quarterly => quarterlyTemplateFilename
      case Yearly => yearlyTemplateFilename
    }
  }
}
