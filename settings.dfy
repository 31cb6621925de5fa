/** The constants the core imports from `argowrapper.constants` that the
    shown `constants.py` does not define. Their values are not known, so
    every operation that needs one takes them together as a `Settings`
    value. */
module Settings {

  datatype Settings = Settings(
    /** `API_VERSION` and `WORKFLOW_KIND` of a manifest. */
    apiVersion: string,
    workflowKind: string,
    /** `GEN3_USER_METADATA_LABEL` and `GEN3_TEAM_PROJECT_METADATA_LABEL`:
        the label keys of the encoded user and team project. */
    userLabel: string,
    teamProjectLabel: string,
    /** `TEAM_PROJECT_FIELD_NAME`: the request body field of the team
        project. */
    teamProjectField: string,
    /** `POD_COMPLETION_STRATEGY.ONPODCOMPLETION.value`. */
    podCompletionStrategy: string,
    /** `BACKUP_PVC_NAME`: the gateway claim when the config names none. */
    backupPvcName: string,
    /** `WORKFLOW_ENTRYPOINT.GWAS_ENTRYPOINT.value` and
        `WORKFLOW_ENTRYPOINT.PLP_ENTRYPOINT.value`. */
    gwasEntrypoint: string,
    plpEntrypoint: string)
}
